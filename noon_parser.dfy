/**
 * The noon.com matcher (src/lib/noon-parser.ts): title keywords and brand,
 * price and currency parsing, the weighted 0..100 match score, the choice of
 * the best of at most five search-result candidates, and the field cascade of
 * a product page. The HTTP request and the HTML selectors are outside the
 * model: a search page or product page is given as the strings the selectors
 * returned, and a failed request as `None`.
 */
module NoonParser {
  import opened Wrappers
  import opened Text

  // ---------------------------------------------------------------------------
  // Generic scanning for global replacements
  // ---------------------------------------------------------------------------

  /**
   * `s.replace(/P/g, '')` from position `i` on, where `at(s, k)` is the length
   * of the match of P that starts at `k` (0 when there is none; P never
   * matches the empty string). After a match, scanning resumes at its end.
   */
  function RemoveAll(s: string, at: (string, nat) -> nat, i: nat): (r: string)
    requires i <= |s|
    requires forall k: nat :: k <= |s| ==> at(s, k) <= |s| - k
    ensures |r| <= |s| - i
    decreases |s| - i
  {
    if i == |s| then []
    else
      var n := at(s, i);
      if n > 0 then RemoveAll(s, at, i + n) else [s[i]] + RemoveAll(s, at, i + 1)
  }

  /** Removing matches only drops characters. */
  lemma {:induction false} RemoveAllChars(s: string, at: (string, nat) -> nat, i: nat)
    requires i <= |s|
    requires forall k: nat :: k <= |s| ==> at(s, k) <= |s| - k
    ensures forall c :: c in RemoveAll(s, at, i) ==> c in s
    decreases |s| - i
  {
    if i < |s| {
      var n := at(s, i);
      if n > 0 {
        RemoveAllChars(s, at, i + n);
      } else {
        RemoveAllChars(s, at, i + 1);
        assert s[i] in s;
      }
    }
  }

  /** Length of the first of `words` that `s` has at `i`, followed by `\b`; 0 if none. */
  function WordEndingAt(s: string, i: nat, words: seq<string>): (n: nat)
    requires i <= |s|
    ensures n <= |s| - i
  {
    if words == [] then 0
    else if |words[0]| > 0 && StartsWith(s[i..], words[0]) && IsBoundary(s, i + |words[0]|) then |words[0]|
    else WordEndingAt(s, i, words[1..])
  }

  /** `\b(w1|w2|...)\b` at position `i`: the matched length, or 0. */
  function WholeWordAt(s: string, i: nat, words: seq<string>): (n: nat)
    requires i <= |s|
    ensures n <= |s| - i
  {
    if IsBoundary(s, i) then WordEndingAt(s, i, words) else 0
  }

  function DigitRun(s: string, i: nat): (n: nat)
    requires i <= |s|
    ensures i + n <= |s|
    ensures forall k :: i <= k < i + n ==> IsDigit(s[k])
    ensures i + n < |s| ==> !IsDigit(s[i + n])
    decreases |s| - i
  {
    if i < |s| && IsDigit(s[i]) then 1 + DigitRun(s, i + 1) else 0
  }

  function SpaceRun(s: string, i: nat): (n: nat)
    requires i <= |s|
    ensures i + n <= |s|
    decreases |s| - i
  {
    if i < |s| && IsSpace(s[i]) then 1 + SpaceRun(s, i + 1) else 0
  }

  // ---------------------------------------------------------------------------
  // extractKeywords
  // ---------------------------------------------------------------------------

  const ConditionWords: seq<string> := ["new", "used", "refurbished", "renewed"]

  const SizeUnits: seq<string> := ["gb", "tb", "mb", "kg", "g", "cm", "mm", "inch", "\"", "'"]

  const ColorWords: seq<string> :=
    ["black", "white", "red", "blue", "green", "yellow", "pink", "purple", "gray", "silver", "gold"]

  const StopWords: set<string> :=
    {"the", "a", "an", "and", "or", "but", "in", "on", "at", "to", "for", "of", "with", "by",
     "from", "pack", "set", "kit"}

  /** `\b(new|used|refurbished|renewed)\b` at `k`. */
  function ConditionAt(s: string, k: nat): (n: nat)
    ensures k <= |s| ==> n <= |s| - k
  {
    if k <= |s| then WholeWordAt(s, k, ConditionWords) else 0
  }

  /** `\b(black|white|...|gold)\b` at `k`. */
  function ColorAt(s: string, k: nat): (n: nat)
    ensures k <= |s| ==> n <= |s| - k
  {
    if k <= |s| then WholeWordAt(s, k, ColorWords) else 0
  }

  /**
   * `\b\d+(\.\d+)?\s*(gb|tb|mb|kg|g|cm|mm|inch|"|')\b` at `k`. Backtracking
   * cannot help this pattern: giving back a digit or a space leaves a digit or
   * a space where a unit, a dot or a space is needed, so the greedy runs decide.
   */
  function SizeAt(s: string, k: nat): (n: nat)
    ensures k <= |s| ==> n <= |s| - k
  {
    if k < |s| && IsDigit(s[k]) && IsBoundary(s, k) then
      var d := k + DigitRun(s, k);
      var f := if d + 1 < |s| && s[d] == '.' && IsDigit(s[d + 1]) then d + 1 + DigitRun(s, d + 1) else d;
      var w := f + SpaceRun(s, f);
      var u := WordEndingAt(s, w, SizeUnits);
      if u > 0 then w + u - k else 0
    else 0
  }

  /** `replace(/[^\w\s]/g, ' ')`. */
  function PunctuationToSpace(s: string): (r: string)
    ensures |r| == |s|
    ensures forall i :: 0 <= i < |s| ==> r[i] == if IsWordChar(s[i]) || IsSpace(s[i]) then s[i] else ' '
  {
    seq(|s|, i requires 0 <= i < |s| => if IsWordChar(s[i]) || IsSpace(s[i]) then s[i] else ' ')
  }

  /** Every character is white space or a lower-case word character. */
  predicate LowerWordOrSpace(s: string) {
    forall k :: 0 <= k < |s| ==> IsSpace(s[k]) || (IsWordChar(s[k]) && !IsUpper(s[k]))
  }

  /** Every character is a blank or a lower-case word character. */
  predicate LowerWordOrBlank(s: string) {
    forall k :: 0 <= k < |s| ==> s[k] == ' ' || (IsWordChar(s[k]) && !IsUpper(s[k]))
  }

  /** `replace(/\s+/g, ' ')`. */
  function CollapseSpaces(s: string): string
    decreases |s|
  {
    if s == [] then []
    else if IsSpace(s[0]) then [' '] + CollapseSpaces(TrimStart(s[1..]))
    else [s[0]] + CollapseSpaces(s[1..])
  }

  /** Collapsing turns every run of white space into one blank and keeps the other characters. */
  lemma {:induction false} CollapseSpacesBlank(s: string)
    requires LowerWordOrSpace(s)
    ensures LowerWordOrBlank(CollapseSpaces(s))
    decreases |s|
  {
    if s != [] {
      if IsSpace(s[0]) {
        var t := TrimStart(s[1..]);
        assert forall k :: 0 <= k < |t| ==> t[k] == s[|s| - |t| + k];
        CollapseSpacesBlank(t);
      } else {
        assert forall k :: 0 <= k < |s| - 1 ==> s[1..][k] == s[k + 1];
        CollapseSpacesBlank(s[1..]);
      }
    }
  }

  /** The lower-cased title with condition, size and colour words removed and punctuation blanked. */
  function WordsAndSpaces(title: string): (r: string)
    ensures LowerWordOrSpace(r)
  {
    var lowered := ToLower(title);
    var s1 := RemoveAll(lowered, ConditionAt, 0);
    var s2 := RemoveAll(s1, SizeAt, 0);
    var s3 := RemoveAll(s2, ColorAt, 0);
    var s4 := PunctuationToSpace(s3);
    assert LowerWordOrSpace(s4) by {
      RemoveAllChars(lowered, ConditionAt, 0);
      RemoveAllChars(s1, SizeAt, 0);
      RemoveAllChars(s2, ColorAt, 0);
      forall i | 0 <= i < |s4| ensures IsSpace(s4[i]) || (IsWordChar(s4[i]) && !IsUpper(s4[i])) {
        assert s3[i] in s3;
      }
    }
    s4
  }

  /** The cleaned title of extractKeywords, before it is split into words. */
  function CleanedTitle(title: string): (r: string)
    ensures LowerWordOrBlank(r)
  {
    var s4 := WordsAndSpaces(title);
    var c5 := CollapseSpaces(s4);
    var r := Trim(c5);
    assert LowerWordOrBlank(r) by {
      CollapseSpacesBlank(s4);
      var k := TrimInfix(c5);
      assert forall i :: 0 <= i < |r| ==> r[i] == c5[k + i];
    }
    r
  }

  /** A word extractKeywords may return. */
  predicate IsKeyword(w: string) {
    && |w| > 2
    && w !in StopWords
    && forall i :: 0 <= i < |w| ==> IsWordChar(w[i]) && !IsUpper(w[i])
  }

  function KeepKeywords(words: seq<string>): (r: seq<string>)
    ensures |r| <= |words|
  {
    if words == [] then []
    else (if |words[0]| > 2 && words[0] !in StopWords then [words[0]] else []) + KeepKeywords(words[1..])
  }

  /** The filter keeps exactly the words longer than two characters that are not stop words. */
  lemma {:induction false} KeepKeywordsMembers(words: seq<string>)
    ensures forall w :: w in KeepKeywords(words) <==> w in words && |w| > 2 && w !in StopWords
  {
    if words != [] {
      KeepKeywordsMembers(words[1..]);
      assert words == [words[0]] + words[1..];
    }
  }

  /**
   * extractKeywords: lower-case, drop condition words, sizes and colours,
   * turn punctuation into spaces, split on single spaces and keep the words
   * longer than two characters that are not stop words.
   */
  function Keywords(title: string): seq<string> {
    KeepKeywords(Split(CleanedTitle(title), ' '))
  }

  /** Every extracted keyword is a lower-case word of at least three characters and no stop word. */
  lemma KeywordsAreKeywords(title: string)
    ensures forall k :: 0 <= k < |Keywords(title)| ==> IsKeyword(Keywords(title)[k])
  {
    var cleaned := CleanedTitle(title);
    var parts := Split(cleaned, ' ');
    var words := KeepKeywords(parts);
    KeepKeywordsMembers(parts);
    SplitNoSeparator(cleaned, ' ');
    forall k | 0 <= k < |words| ensures IsKeyword(words[k]) {
      var w := words[k];
      assert w in words;
      forall i | 0 <= i < |w| ensures IsWordChar(w[i]) && !IsUpper(w[i]) {
        assert w[i] in w;
        SplitChars(cleaned, ' ', w, w[i]);
        var j :| 0 <= j < |cleaned| && cleaned[j] == w[i];
      }
    }
  }

  /** Every character of a piece of `s.split(sep)` is a character of `s`. */
  lemma {:induction false} SplitChars(s: string, sep: char, piece: string, c: char)
    requires piece in Split(s, sep) && c in piece
    ensures c in s
    decreases |s|
  {
    if s != [] {
      var rest := Split(s[1..], sep);
      if s[0] == sep {
        if piece != "" {
          SplitChars(s[1..], sep, piece, c);
        }
      } else if piece == [s[0]] + rest[0] {
        if c != s[0] {
          assert c in rest[0];
          SplitChars(s[1..], sep, rest[0], c);
        }
      } else {
        assert piece in rest[1..];
        SplitChars(s[1..], sep, piece, c);
      }
    }
  }

  // ---------------------------------------------------------------------------
  // extractBrand
  // ---------------------------------------------------------------------------

  const CommonBrands: seq<string> :=
    ["funko", "pop", "lego", "samsung", "apple", "sony", "lg", "philips",
     "nike", "adidas", "puma", "reebok", "converse",
     "logitech", "razer", "corsair", "hyperx",
     "national", "geographic", "mattel", "hasbro"]

  predicate NoUpper(s: string) {
    forall i :: 0 <= i < |s| ==> !IsUpper(s[i])
  }

  /** A delimiter of `split(/[\s:,\-]/)`. */
  predicate IsTokenDelimiter(c: char) {
    IsSpace(c) || c == ':' || c == ',' || c == '-'
  }

  /** `title.split(/[\s:,\-]/)[0]`: the text before the first delimiter. */
  function FirstToken(title: string): (t: string)
    ensures StartsWith(title, t)
    ensures forall i :: 0 <= i < |t| ==> !IsTokenDelimiter(t[i])
    ensures |t| < |title| ==> IsTokenDelimiter(title[|t|])
  {
    if title == [] || IsTokenDelimiter(title[0]) then [] else [title[0]] + FirstToken(title[1..])
  }

  /** The first of `brands` that occurs in `lowered`, if any. */
  function FirstBrandIn(lowered: string, brands: seq<string>): Option<string> {
    if brands == [] then None
    else if Contains(lowered, brands[0]) then Some(brands[0])
    else FirstBrandIn(lowered, brands[1..])
  }

  /** The brand found is one of the list and occurs; none is found only when none occurs. */
  lemma {:induction false} FirstBrandInSpec(lowered: string, brands: seq<string>)
    ensures FirstBrandIn(lowered, brands).Some? ==>
      FirstBrandIn(lowered, brands).value in brands && Contains(lowered, FirstBrandIn(lowered, brands).value)
    ensures FirstBrandIn(lowered, brands).None? <==> forall b :: b in brands ==> !Contains(lowered, b)
  {
    if brands != [] && !Contains(lowered, brands[0]) {
      FirstBrandInSpec(lowered, brands[1..]);
      assert brands == [brands[0]] + brands[1..];
    }
  }

  /**
   * extractBrand, as a specification: the first known brand that occurs in the
   * lower-cased title; otherwise the lower-cased first token when it is longer
   * than two characters; otherwise nothing.
   */
  function Brand(title: string): Option<string> {
    BrandAmong(title, CommonBrands)
  }

  /** extractBrand over a list `brands` of known brands. */
  function BrandAmong(title: string, brands: seq<string>): Option<string> {
    match FirstBrandIn(ToLower(title), brands)
    case Some(b) => Some(b)
    case None =>
      var first := FirstToken(title);
      if |first| > 2 then Some(ToLower(first)) else None
  }

  /**
   * A known brand wins when one occurs in the title; only when none does is
   * the first token used, and only when it is longer than two characters.
   */
  lemma BrandSpec(title: string, brands: seq<string>)
    ensures (exists b :: b in brands && Contains(ToLower(title), b)) ==>
      BrandAmong(title, brands).Some? && BrandAmong(title, brands).value in brands
      && Contains(ToLower(title), BrandAmong(title, brands).value)
    ensures (forall b :: b in brands ==> !Contains(ToLower(title), b)) ==>
      BrandAmong(title, brands) == (if |FirstToken(title)| > 2 then Some(ToLower(FirstToken(title))) else None)
  {
    FirstBrandInSpec(ToLower(title), brands);
  }

  /** A brand taken from the first token is in lower case and has no delimiter in it. */
  lemma BrandFromTokenLower(title: string, brands: seq<string>)
    requires BrandAmong(title, brands).Some? && FirstBrandIn(ToLower(title), brands).None?
    ensures NoUpper(BrandAmong(title, brands).value) && |BrandAmong(title, brands).value| > 2
    ensures forall i :: 0 <= i < |BrandAmong(title, brands).value| ==> !IsTokenDelimiter(BrandAmong(title, brands).value[i])
  {
    var t := FirstToken(title);
    assert forall i :: 0 <= i < |t| ==> IsTokenDelimiter(t[i]) == IsTokenDelimiter(LowerChar(t[i]));
  }

  /** extractBrand as the source writes it, on the list of common brands. */
  method ExtractBrand(title: string) returns (brand: Option<string>)
    ensures brand == Brand(title)
  {
    brand := SearchBrands(title, CommonBrands);
  }

  /** The body of extractBrand: a loop over the brand list with an early return. */
  method SearchBrands(title: string, brands: seq<string>) returns (brand: Option<string>)
    ensures brand == BrandAmong(title, brands)
  {
    var lowerTitle := ToLower(title);
    var i := 0;
    while i < |brands|
      invariant 0 <= i <= |brands|
      invariant FirstBrandIn(lowerTitle, brands) == FirstBrandIn(lowerTitle, brands[i..])
    {
      if Contains(lowerTitle, brands[i]) {
        return Some(brands[i]);
      }
      assert brands[i..][1..] == brands[i + 1..];
      i := i + 1;
    }
    var firstWord := FirstToken(title);
    if |firstWord| > 2 {
      return Some(ToLower(firstWord));
    }
    return None;
  }

  // ---------------------------------------------------------------------------
  // cleanUrl
  // ---------------------------------------------------------------------------

  /** cleanUrl: the URL without its query string and fragment. */
  function CleanUrl(url: string): (r: string)
    ensures StartsWith(url, r)
    ensures '?' !in r && '#' !in r
    ensures '?' !in url && '#' !in url ==> r == url
  {
    var beforeQuery := BeforeFirst(url, '?');
    var r := BeforeFirst(beforeQuery, '#');
    assert r == beforeQuery[..|r|] && beforeQuery == url[..|beforeQuery|];
    SplitFirst(url, '?');
    SplitFirst(beforeQuery, '#');
    r
  }

  lemma CleanUrlIdempotent(url: string)
    ensures CleanUrl(CleanUrl(url)) == CleanUrl(url)
  {
  }

  // ---------------------------------------------------------------------------
  // extractCurrency
  // ---------------------------------------------------------------------------

  const CurrencyCodes: seq<string> := ["AED", "USD", "EUR", "GBP", "JPY", "SAR", "KWD", "QAR", "OMR", "BHD"]

  function UpperChar(c: char): char {
    if IsLower(c) then (c as int - 32) as char else c
  }

  function UpperAscii(s: string): (r: string)
    ensures |r| == |s|
  {
    seq(|s|, i requires 0 <= i < |s| => UpperChar(s[i]))
  }

  /** `\b(AED|USD|...|BHD)\b` (case-insensitive) at `i`: the matched code, upper-cased. */
  function CodeAt(s: string, i: nat): (r: Option<string>)
    requires i <= |s|
    ensures r.Some? ==> r.value in CurrencyCodes
  {
    if i + 3 <= |s| && IsBoundary(s, i) && IsBoundary(s, i + 3) && UpperAscii(s[i..i + 3]) in CurrencyCodes
    then Some(UpperAscii(s[i..i + 3]))
    else None
  }

  /** The leftmost currency-code match at or after `i`. */
  function FirstCode(s: string, i: nat): (r: Option<string>)
    requires i <= |s|
    ensures r.Some? ==> r.value in CurrencyCodes
    decreases |s| - i
  {
    match CodeAt(s, i)
    case Some(code) => Some(code)
    case None => if i == |s| then None else FirstCode(s, i + 1)
  }

  /** The search finds a code exactly when one matches somewhere, and then the leftmost one. */
  lemma {:induction false} FirstCodeSpec(s: string, i: nat)
    requires i <= |s|
    ensures FirstCode(s, i).None? <==> forall k :: i <= k <= |s| ==> CodeAt(s, k).None?
    ensures FirstCode(s, i).Some? ==>
      exists k :: i <= k <= |s| && CodeAt(s, k) == FirstCode(s, i) && forall j :: i <= j < k ==> CodeAt(s, j).None?
    decreases |s| - i
  {
    if CodeAt(s, i).None? && i < |s| {
      FirstCodeSpec(s, i + 1);
      if FirstCode(s, i).Some? {
        var k :| i + 1 <= k <= |s| && CodeAt(s, k) == FirstCode(s, i + 1) && forall j :: i + 1 <= j < k ==> CodeAt(s, j).None?;
        assert forall j :: i <= j < k ==> CodeAt(s, j).None?;
      }
    }
  }

  predicate HasArabic(s: string) {
    exists i :: 0 <= i < |s| && '\U{600}' <= s[i] <= '\U{6FF}'
  }

  /**
   * extractCurrency: a currency code in the text wins, then the symbols
   * `$`, `€`, `£`, `¥` in that order; anything else, the empty string
   * included, is 'AED'.
   */
  function Currency(priceString: string): (r: string)
    ensures r in CurrencyCodes
  {
    if priceString == "" then "AED"
    else match FirstCode(priceString, 0)
      case Some(code) => code
      case None =>
        if '$' in priceString then "USD"
        else if '€' in priceString then "EUR"
        else if '£' in priceString then "GBP"
        else if '¥' in priceString then "JPY"
        else if HasArabic(priceString) then "AED"
        else "AED"
  }

  /** The code in the text takes precedence over any symbol; without code or symbol the currency is AED. */
  lemma CurrencySpec(priceString: string)
    ensures priceString == "" ==> Currency(priceString) == "AED"
    ensures forall k :: 0 <= k <= |priceString| && CodeAt(priceString, k).Some? ==>
      Currency(priceString) in CurrencyCodes && exists j :: 0 <= j <= k && CodeAt(priceString, j) == Some(Currency(priceString))
    ensures (forall k :: 0 <= k <= |priceString| ==> CodeAt(priceString, k).None?) ==>
      Currency(priceString) == (if '$' in priceString then "USD" else if '€' in priceString then "EUR"
                                else if '£' in priceString then "GBP" else if '¥' in priceString then "JPY" else "AED")
  {
    FirstCodeSpec(priceString, 0);
    if priceString == "" {
      assert CodeAt(priceString, 0).None?;
    }
  }

  // ---------------------------------------------------------------------------
  // extractPriceValue (in cents: the pattern allows at most two decimals)
  // ---------------------------------------------------------------------------

  /** A run of one to six digits with `\b` on both sides starts at `i`. */
  predicate StandaloneRunAt(s: string, i: int)
    requires 0 <= i <= |s|
  {
    i < |s| && IsDigit(s[i]) && IsBoundary(s, i) && DigitRun(s, i) <= 6 && IsBoundary(s, i + DigitRun(s, i))
  }

  /**
   * `\b(\d{1,6}(?:[.,]\d{2})?)\b` at `i`, as a value in cents. A match can only
   * start where a run of digits starts, and must take the whole run.
   */
  /** `[.,]\d{2}\b` at `e`: the two decimals as a number of cents. */
  function CentsAt(s: string, e: nat): (r: Option<nat>)
    requires e <= |s|
    ensures r.Some? ==> r.value < 100 && e + 3 <= |s| && (s[e] == '.' || s[e] == ',')
  {
    if e + 2 < |s| && (s[e] == '.' || s[e] == ',') && IsDigit(s[e + 1]) && IsDigit(s[e + 2]) && IsBoundary(s, e + 3) then
      DigitsValueBound(s[e + 1..e + 3], 100);
      Some(DigitsValue(s[e + 1..e + 3]))
    else None
  }

  /**
   * `\b(\d{1,6}(?:[.,]\d{2})?)\b` at `i`, as a value in cents. A match can only
   * start where a run of digits starts, and must take the whole run.
   */
  function PriceAt(s: string, i: nat): (r: Option<nat>)
    requires i <= |s|
    ensures r.Some? <==> StandaloneRunAt(s, i)
    ensures r.Some? ==> r.value < 100_000_000
  {
    if !(i < |s| && IsDigit(s[i]) && IsBoundary(s, i)) then None
    else
      var n := DigitRun(s, i);
      if n > 6 then None else RunPrice(s, i, n)
  }

  /**
   * The value of a match whose whole part is the `n` digits at `i`: with two
   * decimals when `[.,]\d{2}\b` follows, without them at a word boundary.
   */
  function RunPrice(s: string, i: nat, n: nat): (r: Option<nat>)
    requires 0 < n <= 6 && i + n <= |s|
    requires forall k :: i <= k < i + n ==> IsDigit(s[k])
    ensures r.Some? <==> IsBoundary(s, i + n)
    ensures r.Some? ==> r.value < 100_000_000
  {
    var e := i + n;
    DigitsValueBound(s[i..e], Pow10(n));
    assert Pow10(n) <= 1_000_000 by { Pow10Monotone(n, 6); }
    var whole := DigitsValue(s[i..e]);
    match CentsAt(s, e)
    case Some(cents) => assert IsWordChar(s[e - 1]) && !IsWordChar(s[e]); Some(whole * 100 + cents)
    case None => if IsBoundary(s, e) then Some(whole * 100) else None
  }

  lemma {:induction false} Pow10Monotone(a: nat, b: nat)
    requires a <= b
    ensures Pow10(a) <= Pow10(b)
    decreases b
  {
    if a < b {
      Pow10Monotone(a, b - 1);
    }
  }

  /** The leftmost price match at or after `i`. */
  function FirstPrice(s: string, i: nat): (r: Option<nat>)
    requires i <= |s|
    ensures r.Some? ==> r.value < 100_000_000
    decreases |s| - i
  {
    match PriceAt(s, i)
    case Some(v) => Some(v)
    case None => if i == |s| then None else FirstPrice(s, i + 1)
  }

  /** extractPriceValue, in cents; `None` is the source's `null`. */
  function PriceValue(priceString: string): (r: Option<nat>)
    ensures r.Some? ==> r.value < 100_000_000
  {
    if priceString == "" then None else FirstPrice(priceString, 0)
  }

  /** A value is found exactly when a standalone run of one to six digits exists. */
  lemma {:induction false} FirstPriceFound(s: string, i: nat)
    requires i <= |s|
    ensures FirstPrice(s, i).Some? <==> exists k :: i <= k <= |s| && StandaloneRunAt(s, k)
    decreases |s| - i
  {
    if PriceAt(s, i).None? && i < |s| {
      FirstPriceFound(s, i + 1);
      assert forall k :: i <= k <= |s| && StandaloneRunAt(s, k) ==> k == i || i + 1 <= k;
    }
  }

  lemma PriceValueFound(s: string)
    ensures PriceValue(s).Some? <==> exists k :: 0 <= k <= |s| && StandaloneRunAt(s, k)
  {
    FirstPriceFound(s, 0);
  }

  /** A comma is read as the decimal point: the value is the same after every `,` becomes `.`. */
  lemma CommaIsDecimalPoint(s: string)
    ensures PriceValue(ReplaceChar(s, ',', '.')) == PriceValue(s)
  {
    var t := ReplaceChar(s, ',', '.');
    assert CommaToDot(s, t);
    if s != "" {
      FirstPriceCommaDot(s, t, 0);
    }
  }

  /** `t` is `s` with every `,` turned into `.`. */
  predicate CommaToDot(s: string, t: string) {
    |t| == |s| && forall k :: 0 <= k < |s| ==> t[k] == if s[k] == ',' then '.' else s[k]
  }

  lemma {:induction false} FirstPriceCommaDot(s: string, t: string, i: nat)
    requires CommaToDot(s, t) && i <= |s|
    ensures FirstPrice(t, i) == FirstPrice(s, i)
    decreases |s| - i
  {
    PriceAtCommaDot(s, t, i);
    if PriceAt(s, i).None? && i < |s| {
      FirstPriceCommaDot(s, t, i + 1);
    }
  }

  lemma {:induction false} DigitRunCommaDot(s: string, t: string, i: nat)
    requires CommaToDot(s, t) && i <= |s|
    ensures DigitRun(t, i) == DigitRun(s, i)
    decreases |s| - i
  {
    if i < |s| {
      DigitRunCommaDot(s, t, i + 1);
    }
  }

  lemma BoundaryCommaDot(s: string, t: string, k: nat)
    requires CommaToDot(s, t) && k <= |s|
    ensures IsBoundary(t, k) == IsBoundary(s, k)
  {
    if k > 0 {
      assert IsWordChar(t[k - 1]) == IsWordChar(s[k - 1]);
    }
    if k < |s| {
      assert IsWordChar(t[k]) == IsWordChar(s[k]);
    }
  }

  lemma CentsAtCommaDot(s: string, t: string, e: nat)
    requires CommaToDot(s, t) && e <= |s|
    ensures CentsAt(t, e) == CentsAt(s, e)
  {
    if e + 2 < |s| {
      BoundaryCommaDot(s, t, e + 3);
      if IsDigit(s[e + 1]) && IsDigit(s[e + 2]) {
        assert t[e + 1..e + 3] == s[e + 1..e + 3];
      }
    }
  }

  lemma PriceAtCommaDot(s: string, t: string, i: nat)
    requires CommaToDot(s, t) && i <= |s|
    ensures PriceAt(t, i) == PriceAt(s, i)
  {
    BoundaryCommaDot(s, t, i);
    if i < |s| {
      assert IsDigit(t[i]) == IsDigit(s[i]);
    }
    if i < |s| && IsDigit(s[i]) && IsBoundary(s, i) {
      DigitRunCommaDot(s, t, i);
      var n := DigitRun(s, i);
      if n <= 6 {
        RunCommaDot(s, t, i, n);
      }
    }
  }

  /** The digits of a run and what follows them read the same after the replacement. */
  lemma RunCommaDot(s: string, t: string, i: nat, n: nat)
    requires CommaToDot(s, t) && 0 < n <= 6 && i + n <= |s|
    requires forall k :: i <= k < i + n ==> IsDigit(s[k])
    ensures forall k :: i <= k < i + n ==> IsDigit(t[k])
    ensures RunPrice(t, i, n) == RunPrice(s, i, n)
  {
    BoundaryCommaDot(s, t, i + n);
    CentsAtCommaDot(s, t, i + n);
    assert t[i..i + n] == s[i..i + n];
  }

  // ---------------------------------------------------------------------------
  // formatPrice
  // ---------------------------------------------------------------------------

  /** `\b(Off|off|off$)` at `k` (the third alternative is covered by the second). */
  function OffAt(s: string, k: nat): (n: nat)
    ensures k <= |s| ==> n <= |s| - k
  {
    if k <= |s| && IsBoundary(s, k) && (StartsWith(s[k..], "Off") || StartsWith(s[k..], "off")) then 3 else 0
  }

  /** Where `%.*$` matches: the leftmost `%` with no line terminator after it, or |s|. */
  function PercentTailStart(s: string, i: nat): (k: nat)
    requires i <= |s|
    ensures i <= k <= |s|
    decreases |s| - i
  {
    if i == |s| then |s|
    else if s[i] == '%' && forall j :: i < j < |s| ==> !IsLineTerminator(s[j]) then i
    else PercentTailStart(s, i + 1)
  }

  /** The cleaning step of formatPrice: no "Off"/"off" words, nothing from a final `%` on, trimmed. */
  function CleanPriceText(priceString: string): string {
    var noOff := RemoveAll(priceString, OffAt, 0);
    Trim(noOff[..PercentTailStart(noOff, 0)])
  }

  function TwoDigits(n: nat): (r: string)
    requires n < 100
    ensures |r| == 2 && AllDigits(r) && DigitsValue(r) == n
  {
    var r := [DigitChar(n / 10), DigitChar(n % 10)];
    assert r[..1][..0] == [] && r[..|r| - 1] == [r[0]];
    assert DigitsValue([r[0]]) == n / 10;
    r
  }

  /** `value.toFixed(2)` for a value given in cents. */
  function Fixed2(cents: nat): (r: string)
    ensures |r| >= 4 && r[|r| - 3] == '.'
    ensures AllDigits(r[..|r| - 3]) && AllDigits(r[|r| - 2..])
    ensures 100 * DigitsValue(r[..|r| - 3]) + DigitsValue(r[|r| - 2..]) == cents
  {
    var whole := NatToString(cents / 100);
    var r := whole + "." + TwoDigits(cents % 100);
    assert r[..|r| - 3] == whole && r[|r| - 2..] == TwoDigits(cents % 100);
    DigitsValueOfNatToString(cents / 100);
    r
  }

  /**
   * formatPrice: 'N/A' for the empty string; "<amount to 2 places> <CUR>"
   * when the cleaned text holds a number; otherwise the input unchanged.
   */
  function FormatPrice(priceString: string): (r: string)
    ensures r != ""
  {
    if priceString == "" then "N/A"
    else
      var cleaned := CleanPriceText(priceString);
      var currency := Currency(cleaned);
      match PriceValue(cleaned)
      case Some(cents) => Fixed2(cents) + " " + currency
      case None => priceString
  }

  /**
   * The formatted price is 'N/A' for no text, the amount with two decimals and
   * a currency code when the cleaned text holds a number, and the text itself
   * otherwise.
   */
  lemma FormatPriceSpec(priceString: string)
    ensures priceString == "" ==> FormatPrice(priceString) == "N/A"
    ensures priceString != "" && PriceValue(CleanPriceText(priceString)).None? ==> FormatPrice(priceString) == priceString
    ensures priceString != "" && PriceValue(CleanPriceText(priceString)).Some? ==>
      var cents := PriceValue(CleanPriceText(priceString)).value;
      FormatPrice(priceString) == Fixed2(cents) + " " + Currency(CleanPriceText(priceString))
  {
  }

  // ---------------------------------------------------------------------------
  // calculateMatchScore
  // ---------------------------------------------------------------------------

  /** `noonKeywords.some(w => w.includes(word) || word.includes(w))`. */
  predicate Related(word: string, others: seq<string>) {
    exists k :: 0 <= k < |others| && (Contains(others[k], word) || Contains(word, others[k]))
  }

  /** The reference keywords that some candidate keyword relates to, in order. */
  function MatchedKeywords(reference: seq<string>, candidate: seq<string>): (r: seq<string>)
    ensures |r| <= |reference|
    ensures |r| == |reference| <==> r == reference
  {
    if reference == [] then []
    else
      (if Related(reference[0], candidate) then [reference[0]] else []) + MatchedKeywords(reference[1..], candidate)
  }

  /** A reference keyword is matched exactly when some candidate keyword relates to it. */
  lemma {:induction false} MatchedKeywordsMembers(reference: seq<string>, candidate: seq<string>)
    ensures forall w :: w in MatchedKeywords(reference, candidate) <==> w in reference && Related(w, candidate)
  {
    if reference != [] {
      MatchedKeywordsMembers(reference[1..], candidate);
      assert reference == [reference[0]] + reference[1..];
    }
  }

  /** Keyword part of the score: the matched fraction of the reference keywords, times 50. */
  function KeywordPoints(reference: seq<string>, candidate: seq<string>): (p: real)
    ensures 0.0 <= p <= 50.0
    ensures p == 50.0 <==> |reference| >= 1 && MatchedKeywords(reference, candidate) == reference
  {
    var matched := MatchedKeywords(reference, candidate);
    var total := if |reference| > 1 then |reference| else 1;
    FractionBound(|matched|, total);
    (|matched| as real / total as real) * 50.0
  }

  lemma FractionBound(m: nat, t: nat)
    requires 0 < t && m <= t
    ensures 0.0 <= m as real / t as real <= 1.0
    ensures m as real / t as real == 1.0 <==> m == t
  {
  }

  /** Brand part of the score: 20 for equal brands, 10 when one contains the other, else 0. */
  function BrandPoints(referenceTitle: string, candidateTitle: string): (p: real)
    ensures p == 0.0 || p == 10.0 || p == 20.0
    ensures p == 20.0 <==> Brand(referenceTitle).Some? && Brand(referenceTitle) == Brand(candidateTitle)
  {
    match (Brand(referenceTitle), Brand(candidateTitle))
    case (Some(a), Some(b)) =>
      if a == b then 20.0 else if Contains(a, b) || Contains(b, a) then 10.0 else 0.0
    case _ => 0.0
  }

  /** `Math.abs(a - b) / a`: the difference of two prices relative to the first. */
  function RelativeDifference(a: nat, b: nat): (d: real)
    requires a > 0
    ensures d >= 0.0
    ensures d == 0.0 <==> a == b
  {
    (if a >= b then a - b else b - a) as real / a as real
  }

  /**
   * Price part of the score: with both prices present and parsing to non-zero
   * values whose difference is under half the reference value, 30 scaled down
   * linearly by the relative difference; otherwise 0.
   */
  function PricePoints(referencePrice: string, candidatePrice: string): (p: real)
    ensures p == 0.0 || 15.0 < p <= 30.0
    ensures p > 0.0 <==>
      && referencePrice != "" && candidatePrice != ""
      && PriceValue(referencePrice).Some? && PriceValue(referencePrice).value > 0
      && PriceValue(candidatePrice).Some? && PriceValue(candidatePrice).value > 0
      && RelativeDifference(PriceValue(referencePrice).value, PriceValue(candidatePrice).value) < 0.5
    ensures p > 0.0 ==> p == (1.0 - RelativeDifference(PriceValue(referencePrice).value, PriceValue(candidatePrice).value)) * 30.0
  {
    if referencePrice == "" || candidatePrice == "" then 0.0
    else
      var a := PriceValue(referencePrice);
      var b := PriceValue(candidatePrice);
      if a.Some? && a.value != 0 && b.Some? && b.value != 0 then
        var diff := RelativeDifference(a.value, b.value);
        if diff < 0.5 then (1.0 - diff) * 30.0 else 0.0
      else 0.0
  }

  /** `Math.round`: the nearest integer, halves rounded up. */
  function Round(x: real): int {
    (x + 0.5).Floor
  }

  /** calculateMatchScore as a specification: the rounded sum of the three parts. */
  function MatchScore(referenceTitle: string, candidateTitle: string, referencePrice: string, candidatePrice: string): int {
    RoundedTotal(KeywordPoints(Keywords(referenceTitle), Keywords(candidateTitle)), BrandPoints(referenceTitle, candidateTitle),
                 PricePoints(referencePrice, candidatePrice))
  }

  /** `Math.round(keywordScore + brandScore + priceScore)`. */
  function RoundedTotal(keywordScore: real, brandScore: real, priceScore: real): int {
    Round(keywordScore + brandScore + priceScore)
  }

  /** The score is a whole number from 0 to 100: the parts add up to at most 50 + 20 + 30. */
  lemma MatchScoreBounds(referenceTitle: string, candidateTitle: string, referencePrice: string, candidatePrice: string)
    ensures 0 <= MatchScore(referenceTitle, candidateTitle, referencePrice, candidatePrice) <= 100
  {
    var k := KeywordPoints(Keywords(referenceTitle), Keywords(candidateTitle));
    var b := BrandPoints(referenceTitle, candidateTitle);
    var p := PricePoints(referencePrice, candidatePrice);
    assert MatchScore(referenceTitle, candidateTitle, referencePrice, candidatePrice) == RoundedTotal(k, b, p);
    assert 0.0 <= k + b + p <= 100.0;
  }

  /**
   * calculateMatchScore as the source computes it: `score` starts at 0 and
   * receives the keyword, brand and price points one after the other; the
   * result is rounded.
   */
  method CalculateMatchScore(amazonTitle: string, noonTitle: string, amazonPrice: string, noonPrice: string)
    returns (result: int)
    ensures result == MatchScore(amazonTitle, noonTitle, amazonPrice, noonPrice)
  {
    var score := 0.0;
    var keywordScore := KeywordScore(amazonTitle, noonTitle);
    score := score + keywordScore;
    var brandScore := BrandScore(amazonTitle, noonTitle);
    score := score + brandScore;
    var priceScore := PriceScore(amazonPrice, noonPrice);
    score := score + priceScore;
    MatchScoreOfParts(amazonTitle, noonTitle, amazonPrice, noonPrice, keywordScore, brandScore, priceScore);
    result := Round(score);
  }

  /** The rounded sum of the three parts is the specified score. */
  lemma MatchScoreOfParts(amazonTitle: string, noonTitle: string, amazonPrice: string, noonPrice: string,
                          keywordScore: real, brandScore: real, priceScore: real)
    requires keywordScore == KeywordPoints(Keywords(amazonTitle), Keywords(noonTitle))
    requires brandScore == BrandPoints(amazonTitle, noonTitle)
    requires priceScore == PricePoints(amazonPrice, noonPrice)
    ensures Round(keywordScore + brandScore + priceScore) == MatchScore(amazonTitle, noonTitle, amazonPrice, noonPrice)
  {
    assert MatchScore(amazonTitle, noonTitle, amazonPrice, noonPrice) == RoundedTotal(keywordScore, brandScore, priceScore);
  }

  /**
   * Step 1 of calculateMatchScore: the reference keywords that some candidate
   * keyword relates to, over the number of reference keywords (at least 1),
   * times 50.
   */
  method KeywordScore(amazonTitle: string, noonTitle: string) returns (keywordScore: real)
    ensures keywordScore == KeywordPoints(Keywords(amazonTitle), Keywords(noonTitle))
    ensures 0.0 <= keywordScore <= 50.0
  {
    var amazonKeywords := Keywords(amazonTitle);
    var noonKeywords := Keywords(noonTitle);
    var matchedKeywords := MatchedKeywords(amazonKeywords, noonKeywords);
    var total := if |amazonKeywords| > 1 then |amazonKeywords| else 1;
    var keywordMatchRatio := |matchedKeywords| as real / total as real;
    keywordScore := keywordMatchRatio * 50.0;
    KeywordPointsOfRatio(amazonKeywords, noonKeywords, keywordMatchRatio);
  }

  /** The keyword points are the matched ratio of the reference keywords, times 50. */
  lemma KeywordPointsOfRatio(reference: seq<string>, candidate: seq<string>, ratio: real)
    requires ratio == |MatchedKeywords(reference, candidate)| as real / (if |reference| > 1 then |reference| else 1) as real
    ensures KeywordPoints(reference, candidate) == ratio * 50.0
  {
  }

  /** Step 2 of calculateMatchScore: 20 for equal brands, 10 when one contains the other. */
  method BrandScore(amazonTitle: string, noonTitle: string) returns (brandScore: real)
    ensures brandScore == BrandPoints(amazonTitle, noonTitle)
  {
    brandScore := 0.0;
    var amazonBrand := ExtractBrand(amazonTitle);
    var noonBrand := ExtractBrand(noonTitle);
    if amazonBrand.Some? && noonBrand.Some? && amazonBrand.value == noonBrand.value {
      brandScore := 20.0;
    } else if amazonBrand.Some? && noonBrand.Some? {
      if Contains(amazonBrand.value, noonBrand.value) || Contains(noonBrand.value, amazonBrand.value) {
        brandScore := 10.0;
      }
    }
  }

  /** Step 3 of calculateMatchScore: price points when the prices differ by less than half. */
  method PriceScore(amazonPrice: string, noonPrice: string) returns (priceScore: real)
    ensures priceScore == PricePoints(amazonPrice, noonPrice)
  {
    priceScore := 0.0;
    if amazonPrice != "" && noonPrice != "" {
      var amazonValue := PriceValue(amazonPrice);
      var noonValue := PriceValue(noonPrice);
      if amazonValue.Some? && amazonValue.value != 0 && noonValue.Some? && noonValue.value != 0 {
        var priceDiff := RelativeDifference(amazonValue.value, noonValue.value);
        if priceDiff < 0.5 {
          priceScore := (1.0 - priceDiff) * 30.0;
        }
      }
    }
  }

  /** Every keyword is related to itself, so a title matches all of its own keywords. */
  lemma {:induction false} MatchedKeywordsSelf(reference: seq<string>, candidate: seq<string>)
    requires forall w :: w in reference ==> w in candidate
    ensures MatchedKeywords(reference, candidate) == reference
  {
    if reference != [] {
      assert reference[0] in reference;
      assert reference[0] in candidate;
      var k :| 0 <= k < |candidate| && candidate[k] == reference[0];
      assert StartsWith(candidate[k], reference[0]);
      assert Related(reference[0], candidate);
      MatchedKeywordsSelf(reference[1..], candidate);
    }
  }

  /**
   * Identical titles with at least one keyword and a brand, and equal prices
   * that parse to a positive value, score exactly 100.
   */
  lemma IdenticalListingsScoreHundred(title: string, price: string)
    requires |Keywords(title)| >= 1 && Brand(title).Some?
    requires PriceValue(price).Some? && PriceValue(price).value > 0
    ensures MatchScore(title, title, price, price) == 100
  {
    MatchedKeywordsSelf(Keywords(title), Keywords(title));
    var k := KeywordPoints(Keywords(title), Keywords(title));
    var b := BrandPoints(title, title);
    var p := PricePoints(price, price);
    assert k == 50.0 && b == 20.0;
    PricePointsSame(price);
    assert k + b + p == 100.0;
    assert MatchScore(title, title, price, price) == RoundedTotal(k, b, p);
  }

  lemma PricePointsSame(price: string)
    requires PriceValue(price).Some? && PriceValue(price).value > 0
    ensures PricePoints(price, price) == 30.0
  {
  }

  // ---------------------------------------------------------------------------
  // Candidates and the search
  // ---------------------------------------------------------------------------

  datatype NoonProduct = NoonProduct(title: string, price: string, img: string, url: string, sku: string, matchScore: Option<int>)

  /**
   * One `[data-qa="product-name"]` element of a search page: its text, the
   * href of its closest link ("" when none), the text of the first price
   * element of its card, and the src / data-src of the card's first image.
   */
  datatype NameElement = NameElement(text: string, linkHref: string, cardPrice: string, imgSrc: string, imgDataSrc: string)

  /**
   * One `a[href*="/p/"]` link of a search page: its href and text, and from
   * its container the first heading/title/name text, price text and image.
   */
  datatype ProductLink = ProductLink(href: string, text: string, containerTitle: string, containerPrice: string,
                                     imgSrc: string, imgDataSrc: string)

  datatype SearchPage = SearchPage(names: seq<NameElement>, links: seq<ProductLink>)

  /** Number of elements each strategy looks at (`if (index >= 5) return false`). */
  const MaxCandidates := 5

  predicate IsSkuChar(c: char) { IsUpper(c) || IsDigit(c) || c == '-' }

  function SkuRun(s: string, i: nat): (n: nat)
    requires i <= |s|
    ensures i + n <= |s|
    decreases |s| - i
  {
    if i < |s| && IsSkuChar(s[i]) then 1 + SkuRun(s, i + 1) else 0
  }

  /** The SKU captured by `/\/([A-Z0-9-]+)\/p\/?/` at or after `i`, or "" when there is no match. */
  function SkuFrom(url: string, i: nat): (sku: string)
    requires i <= |url|
    ensures forall k :: 0 <= k < |sku| ==> IsSkuChar(sku[k])
    decreases |url| - i
  {
    if i == |url| then ""
    else
      var n := if url[i] == '/' then SkuRun(url, i + 1) else 0;
      if n > 0 && StartsWith(url[i + 1 + n..], "/p") then
        assert forall k :: i + 1 <= k < i + 1 + n ==> IsSkuChar(url[k]) by { SkuRunChars(url, i + 1); }
        url[i + 1..i + 1 + n]
      else SkuFrom(url, i + 1)
  }

  lemma {:induction false} SkuRunChars(s: string, i: nat)
    requires i <= |s|
    ensures forall k :: i <= k < i + SkuRun(s, i) ==> IsSkuChar(s[k])
    decreases |s| - i
  {
    if i < |s| && IsSkuChar(s[i]) {
      SkuRunChars(s, i + 1);
    }
  }

  function AbsoluteNoonUrl(href: string): string {
    if StartsWith(href, "http") then href else "https://www.noon.com" + href
  }

  /** The candidate the first strategy makes of one product-name element, if any. */
  function NameCandidate(query: string, amazonPrice: string, e: NameElement): (r: Option<NoonProduct>)
    ensures r.Some? ==> r.value.matchScore == Some(MatchScore(query, r.value.title, amazonPrice, Trim(e.cardPrice)))
    ensures r.Some? ==> r.value.matchScore.Some? && 0 <= r.value.matchScore.value <= 100
  {
    var title := Trim(e.text);
    var url := AbsoluteNoonUrl(e.linkHref);
    var price := Trim(e.cardPrice);
    var img := Or(e.imgSrc, e.imgDataSrc);
    var img' := if img != "" then BeforeFirst(img, '?') else img;
    if title != "" && url != "" then
      MatchScoreBounds(query, title, amazonPrice, price);
      Some(NoonProduct(title, FormatPrice(price), img', CleanUrl(url), SkuFrom(url, 0),
                       Some(MatchScore(query, title, amazonPrice, price))))
    else None
  }

  /** The candidate the second strategy makes of one product link, if any. */
  function LinkCandidate(query: string, amazonPrice: string, l: ProductLink): (r: Option<NoonProduct>)
    ensures r.Some? ==> r.value.matchScore.Some? && 0 <= r.value.matchScore.value <= 100
  {
    if !Contains(l.href, "/p/") || Contains(l.href, "/brand/") then None
    else
      var url := AbsoluteNoonUrl(l.href);
      var title := Or(Trim(l.containerTitle), Trim(l.text));
      if title == "" || |title| < 5 then None
      else
        var price := Or(Trim(l.containerPrice), "Price not available");
        var img := BeforeFirst(Or(l.imgSrc, l.imgDataSrc), '?');
        MatchScoreBounds(query, title, amazonPrice, price);
        Some(NoonProduct(title, FormatPrice(price), img, CleanUrl(url), SkuFrom(url, 0),
                         Some(MatchScore(query, title, amazonPrice, price))))
  }

  /** The element of an option, as a sequence of zero or one. */
  function AsSeq<T>(o: Option<T>): seq<T> {
    match o case Some(x) => [x] case None => []
  }

  /** Every candidate carries a match score in 0..100. */
  predicate Scored(r: seq<NoonProduct>) {
    forall k :: 0 <= k < |r| ==> r[k].matchScore.Some? && 0 <= r[k].matchScore.value <= 100
  }

  lemma ScoredOne(o: Option<NoonProduct>)
    requires o.Some? ==> o.value.matchScore.Some? && 0 <= o.value.matchScore.value <= 100
    ensures Scored(AsSeq(o))
  {
  }

  lemma ScoredAppend(a: seq<NoonProduct>, b: seq<NoonProduct>)
    requires Scored(a) && Scored(b)
    ensures Scored(a + b)
  {
    forall k | 0 <= k < |a + b| ensures (a + b)[k].matchScore.Some? && 0 <= (a + b)[k].matchScore.value <= 100 {
      if k >= |a| {
        assert (a + b)[k] == b[k - |a|];
      }
    }
  }

  function NameCandidates(query: string, amazonPrice: string, names: seq<NameElement>): (r: seq<NoonProduct>)
    ensures |r| <= |names|
    ensures Scored(r)
  {
    if names == [] then []
    else
      var prev := NameCandidates(query, amazonPrice, names[..|names| - 1]);
      var candidate := NameCandidate(query, amazonPrice, names[|names| - 1]);
      ScoredOne(candidate);
      var next := AsSeq(candidate);
      ScoredAppend(prev, next);
      prev + next
  }

  function LinkCandidates(query: string, amazonPrice: string, links: seq<ProductLink>): (r: seq<NoonProduct>)
    ensures |r| <= |links|
    ensures Scored(r)
  {
    if links == [] then []
    else
      var prev := LinkCandidates(query, amazonPrice, links[..|links| - 1]);
      var candidate := LinkCandidate(query, amazonPrice, links[|links| - 1]);
      ScoredOne(candidate);
      var next := AsSeq(candidate);
      ScoredAppend(prev, next);
      prev + next
  }

  function FirstFive<T>(s: seq<T>): seq<T> {
    if |s| <= MaxCandidates then s else s[..MaxCandidates]
  }

  /**
   * The candidates of a search page: those of the data-qa strategy over its
   * first five product names, or, only when that yields none, those of the
   * link strategy over its first five product links. Never more than five.
   */
  function Candidates(query: string, amazonPrice: string, page: SearchPage): (r: seq<NoonProduct>)
    ensures |r| <= MaxCandidates
    ensures NameCandidates(query, amazonPrice, FirstFive(page.names)) != [] ==>
      r == NameCandidates(query, amazonPrice, FirstFive(page.names))
    ensures Scored(r)
  {
    var byName := NameCandidates(query, amazonPrice, FirstFive(page.names));
    if byName != [] then byName else LinkCandidates(query, amazonPrice, FirstFive(page.links))
  }

  function ScoreOf(p: NoonProduct): int {
    p.matchScore.GetOr(0)
  }

  /**
   * The sort-then-take-first of searchNoonProduct: the array sort is stable,
   * so `candidates[0]` after sorting by descending score is the first
   * candidate of maximal score. It is returned when it reaches `minMatchScore`.
   */
  method SelectBest(candidates: seq<NoonProduct>, minMatchScore: int) returns (best: Option<NoonProduct>)
    ensures best.Some? ==> exists k :: 0 <= k < |candidates| && candidates[k] == best.value
                                        && (forall j :: 0 <= j < k ==> ScoreOf(candidates[j]) < ScoreOf(best.value))
    ensures best.Some? ==> ScoreOf(best.value) >= minMatchScore
    ensures best.Some? ==> forall j :: 0 <= j < |candidates| ==> ScoreOf(candidates[j]) <= ScoreOf(best.value)
    ensures best.None? ==> forall j :: 0 <= j < |candidates| ==> ScoreOf(candidates[j]) < minMatchScore
  {
    if |candidates| == 0 {
      return None;
    }
    var top := 0;
    var i := 1;
    while i < |candidates|
      invariant 1 <= i <= |candidates| && 0 <= top < i
      invariant forall j :: 0 <= j < i ==> ScoreOf(candidates[j]) <= ScoreOf(candidates[top])
      invariant forall j :: 0 <= j < top ==> ScoreOf(candidates[j]) < ScoreOf(candidates[top])
    {
      if ScoreOf(candidates[i]) > ScoreOf(candidates[top]) {
        top := i;
      }
      i := i + 1;
    }
    if ScoreOf(candidates[top]) >= minMatchScore {
      best := Some(candidates[top]);
    } else {
      best := None;
    }
  }

  /** The `.each` callback of the data-qa strategy: one product-name element to a candidate. */
  method CandidateFromName(query: string, amazonPrice: string, e: NameElement) returns (c: Option<NoonProduct>)
    ensures c == NameCandidate(query, amazonPrice, e)
  {
    var title := Trim(e.text);
    var url := AbsoluteNoonUrl(e.linkHref);
    var price := Trim(e.cardPrice);
    var img := Or(e.imgSrc, e.imgDataSrc);
    if img != "" {
      img := BeforeFirst(img, '?');
    }
    if title != "" && url != "" {
      var matchScore := CalculateMatchScore(query, title, amazonPrice, price);
      c := Some(NoonProduct(title, FormatPrice(price), img, CleanUrl(url), SkuFrom(url, 0), Some(matchScore)));
    } else {
      c := None;
    }
  }

  /** The `.each` callback of the link strategy: one product link to a candidate. */
  method CandidateFromLink(query: string, amazonPrice: string, l: ProductLink) returns (c: Option<NoonProduct>)
    ensures c == LinkCandidate(query, amazonPrice, l)
  {
    if !Contains(l.href, "/p/") || Contains(l.href, "/brand/") {
      return None;
    }
    var url := if StartsWith(l.href, "http") then l.href else "https://www.noon.com" + l.href;
    var title := Or(Trim(l.containerTitle), Trim(l.text));
    if title == "" || |title| < 5 {
      return None;
    }
    var price := Or(Trim(l.containerPrice), "Price not available");
    var img := BeforeFirst(Or(l.imgSrc, l.imgDataSrc), '?');
    var matchScore := CalculateMatchScore(query, title, amazonPrice, price);
    return Some(NoonProduct(title, FormatPrice(price), img, CleanUrl(url), SkuFrom(url, 0), Some(matchScore)));
  }

  lemma NameCandidatesStep(query: string, amazonPrice: string, names: seq<NameElement>, i: nat)
    requires i < |names|
    ensures NameCandidates(query, amazonPrice, names[..i + 1])
            == NameCandidates(query, amazonPrice, names[..i]) + AsSeq(NameCandidate(query, amazonPrice, names[i]))
  {
    assert names[..i + 1][..i] == names[..i];
  }

  /** The first `.each` loop: candidates from the first five product names. */
  method NameStrategy(query: string, amazonPrice: string, names: seq<NameElement>) returns (candidates: seq<NoonProduct>)
    ensures candidates == NameCandidates(query, amazonPrice, FirstFive(names))
  {
    var firstFive := FirstFive(names);
    candidates := [];
    var i := 0;
    while i < |firstFive|
      invariant 0 <= i <= |firstFive|
      invariant candidates == NameCandidates(query, amazonPrice, firstFive[..i])
    {
      var c := CandidateFromName(query, amazonPrice, firstFive[i]);
      NameCandidatesStep(query, amazonPrice, firstFive, i);
      candidates := candidates + AsSeq(c);
      i := i + 1;
    }
    assert firstFive[..i] == firstFive;
  }

  lemma LinkCandidatesStep(query: string, amazonPrice: string, links: seq<ProductLink>, i: nat)
    requires i < |links|
    ensures LinkCandidates(query, amazonPrice, links[..i + 1])
            == LinkCandidates(query, amazonPrice, links[..i]) + AsSeq(LinkCandidate(query, amazonPrice, links[i]))
  {
    assert links[..i + 1][..i] == links[..i];
  }

  /** The second `.each` loop: candidates from the first five product links. */
  method LinkStrategy(query: string, amazonPrice: string, links: seq<ProductLink>) returns (candidates: seq<NoonProduct>)
    ensures candidates == LinkCandidates(query, amazonPrice, FirstFive(links))
  {
    var firstFive := FirstFive(links);
    candidates := [];
    var i := 0;
    while i < |firstFive|
      invariant 0 <= i <= |firstFive|
      invariant candidates == LinkCandidates(query, amazonPrice, firstFive[..i])
    {
      var c := CandidateFromLink(query, amazonPrice, firstFive[i]);
      LinkCandidatesStep(query, amazonPrice, firstFive, i);
      candidates := candidates + AsSeq(c);
      i := i + 1;
    }
    assert firstFive[..i] == firstFive;
  }

  /**
   * searchNoonProduct over a fetched search page (`None` when the request
   * failed): the candidates of the page, of which the first of highest score
   * is returned if that score reaches the threshold (40 by default).
   */
  method SearchNoonProduct(query: string, amazonPrice: string, page: Option<SearchPage>, minMatchScore: int := 40)
    returns (result: Option<NoonProduct>)
    ensures page.None? ==> result.None?
    ensures page.Some? ==> var cs := Candidates(query, amazonPrice, page.value);
      && (result.Some? ==> ScoreOf(result.value) >= minMatchScore
                           && (forall c :: c in cs ==> ScoreOf(c) <= ScoreOf(result.value))
                           && exists k :: 0 <= k < |cs| && cs[k] == result.value
                                          && forall j :: 0 <= j < k ==> ScoreOf(cs[j]) < ScoreOf(result.value))
      && (result.None? ==> forall c :: c in cs ==> ScoreOf(c) < minMatchScore)
  {
    if page.None? {
      return None;
    }
    var candidates := NameStrategy(query, amazonPrice, page.value.names);
    if candidates == [] {
      candidates := LinkStrategy(query, amazonPrice, page.value.links);
    }
    result := SelectBest(candidates, minMatchScore);
  }

  // ---------------------------------------------------------------------------
  // parseNoonProduct
  // ---------------------------------------------------------------------------

  /**
   * What the selectors of parseNoonProduct return on a product page: the
   * texts of the first `h1`, product-name and product-price elements and of
   * the first sellingPrice element, and the og:title, product:price:amount,
   * product-image src and og:image attributes ("" when absent).
   */
  datatype ProductPage = ProductPage(h1: string, productName: string, ogTitle: string,
                                     productPrice: string, sellingPrice: string, priceAmount: string,
                                     productImage: string, ogImage: string)

  /** parseNoonProduct's title cascade: h1, then product name, then og:title. */
  function PageTitle(p: ProductPage): string {
    Or(Or(Trim(p.h1), Trim(p.productName)), p.ogTitle)
  }

  /**
   * parseNoonProduct: `None` when the request failed or the page has no
   * title in any of the three places; otherwise the product with its
   * formatted price, the image without query string and the cleaned URL.
   */
  function ParseNoonProduct(url: string, page: Option<ProductPage>): (r: Option<NoonProduct>)
    ensures r.None? <==> page.None? || (Trim(page.value.h1) == "" && Trim(page.value.productName) == "" && page.value.ogTitle == "")
    ensures r.Some? ==> r.value.title != "" && r.value.url == CleanUrl(url) && r.value.matchScore.None?
  {
    match page
    case None => None
    case Some(p) =>
      var title := PageTitle(p);
      var price := Or(Or(Trim(p.productPrice), Trim(p.sellingPrice)), Or(p.priceAmount, "Price not available"));
      var img := Or(p.productImage, p.ogImage);
      if title != "" then
        Some(NoonProduct(title, FormatPrice(price), BeforeFirst(img, '?'), CleanUrl(url), SkuFrom(url, 0), None))
      else None
  }
}
