/**
 * Resolution of Amazon short links (src/lib/resolve-short-url.ts). The HTTP
 * client is an oracle `fetch` from the requested URL to its reply: either an
 * answer (a response whose status the client accepted) with its `Location`
 * header and its request URL, or a refusal (a thrown error) that may still
 * carry the `Location` header of a redirect response. An absent header or URL
 * is "". The source recurses on redirect errors without a bound; the model
 * counts those recursions with `hops`.
 */
module ShortUrl {
  import opened Text

  /** The substrings that mark a URL as an Amazon short link. */
  const ShortDomains: seq<string> := ["a.co", "amzn.to", "amzn.eu", "amzn.com", "amzn.asia"]

  /** `shortDomains.some(domain => url.includes(domain))`. */
  predicate IsShortUrl(url: string) {
    Contains(url, "a.co") || Contains(url, "amzn.to") || Contains(url, "amzn.eu")
    || Contains(url, "amzn.com") || Contains(url, "amzn.asia")
  }

  /** The looser test used after a first hop: the URL still mentions `amzn.` or `a.co`. */
  predicate StillShort(url: string) {
    Contains(url, "amzn.") || Contains(url, "a.co")
  }

  /** Every short link is still short under the looser test. */
  lemma ShortIsStillShort(url: string)
    requires IsShortUrl(url)
    ensures StillShort(url)
  {
    if !Contains(url, "a.co") {
      var p: string;
      if Contains(url, "amzn.to") { p := "amzn.to"; }
      else if Contains(url, "amzn.eu") { p := "amzn.eu"; }
      else if Contains(url, "amzn.com") { p := "amzn.com"; }
      else { p := "amzn.asia"; }
      var i := ContainsWitness(url, p);
      assert url[i..i + 5] == p[..5] == "amzn.";
      ContainsAt(url, "amzn.", i);
    }
  }

  datatype Reply =
    | Answered(location: string, configUrl: string)
    | Refused(location: string)

  /** The URL a call returns and the URLs it requested, in order. */
  datatype Resolution = Resolution(url: string, requests: seq<string>)

  /** The URL the first answer leads to: its `Location`, else its request URL, else the input. */
  function FirstHop(url: string, location: string, configUrl: string): string {
    var first := Or(location, Or(configUrl, url));
    if first == "" || first == url then Or(configUrl, url) else first
  }

  /** What `resolveShortUrl(url)` returns and requests when at most `hops` redirect errors are followed. */
  function Resolve(url: string, fetch: string -> Reply, hops: nat): Resolution
    decreases hops, 1
  {
    if !IsShortUrl(url) then Resolution(url, [])
    else
      match fetch(url)
      case Refused(location) => Recover(url, location, fetch, hops, [url])
      case Answered(location, configUrl) =>
        var hop := FirstHop(url, location, configUrl);
        if !StillShort(hop) then Resolution(hop, [url])
        else
          match fetch(hop)
          case Answered(location2, configUrl2) => Resolution(Or(location2, Or(configUrl2, hop)), [url, hop])
          case Refused(location2) => Recover(url, location2, fetch, hops, [url, hop])
  }

  /**
   * The `catch` branch: a redirect error's `Location` is returned, or resolved
   * again while it still looks short; any other error gives back the input URL.
   * With no hops left the redirect URL itself is returned.
   */
  function Recover(url: string, location: string, fetch: string -> Reply, hops: nat, sent: seq<string>): Resolution
    decreases hops, 0
  {
    if location == "" then Resolution(url, sent)
    else if !StillShort(location) || hops == 0 then Resolution(location, sent)
    else
      var inner := Resolve(location, fetch, hops - 1);
      Resolution(inner.url, sent + inner.requests)
  }

  /** The source's procedure: `finalUrl` is reassigned across up to two requests; redirect errors recurse. */
  method ResolveShortUrl(url: string, fetch: string -> Reply, hops: nat) returns (finalUrl: string, requests: seq<string>)
    ensures Resolution(finalUrl, requests) == Resolve(url, fetch, hops)
    decreases hops
  {
    if !IsShortUrl(url) {
      return url, [];
    }
    requests := [url];
    var response := fetch(url);
    var failure := "";
    var failed := false;
    if response.Answered? {
      finalUrl := Or(response.location, Or(response.configUrl, url));
      if finalUrl == "" || finalUrl == url {
        finalUrl := Or(response.configUrl, url);
      }
      if StillShort(finalUrl) {
        requests := requests + [finalUrl];
        var response2 := fetch(finalUrl);
        if response2.Answered? {
          finalUrl := Or(response2.location, Or(response2.configUrl, finalUrl));
        } else {
          failed, failure := true, response2.location;
        }
      }
    } else {
      failed, failure := true, response.location;
    }
    if failed {
      if failure == "" {
        finalUrl := url;
      } else if !StillShort(failure) || hops == 0 {
        finalUrl := failure;
      } else {
        var inner;
        finalUrl, inner := ResolveShortUrl(failure, fetch, hops - 1);
        requests := requests + inner;
      }
    }
  }

  /** A URL that is not a short link comes back unchanged, and nothing is requested. */
  lemma LongUrlUntouched(url: string, fetch: string -> Reply, hops: nat)
    requires !IsShortUrl(url)
    ensures Resolve(url, fetch, hops) == Resolution(url, [])
  {
  }

  /** A short link is always requested first. */
  lemma ShortUrlRequestedFirst(url: string, fetch: string -> Reply, hops: nat)
    requires IsShortUrl(url)
    ensures |Resolve(url, fetch, hops).requests| >= 1 && Resolve(url, fetch, hops).requests[0] == url
  {
  }

  /**
   * When the first request is answered and its result no longer looks short,
   * the result is the `Location` header, else the request URL, else the input.
   */
  lemma FirstAnswerFinal(url: string, fetch: string -> Reply, hops: nat)
    requires IsShortUrl(url) && fetch(url).Answered?
    requires var first := Or(fetch(url).location, Or(fetch(url).configUrl, url)); first != url && !StillShort(first)
    ensures Resolve(url, fetch, hops) == Resolution(Or(fetch(url).location, Or(fetch(url).configUrl, url)), [url])
  {
  }

  /** When nothing throws, at most two requests are made, and the second one only for a URL that still looks short. */
  lemma AnsweredAtMostTwoRequests(url: string, fetch: string -> Reply, hops: nat)
    requires forall u :: fetch(u).Answered?
    ensures |Resolve(url, fetch, hops).requests| <= 2
    ensures |Resolve(url, fetch, hops).requests| == 2 ==> StillShort(Resolve(url, fetch, hops).requests[1])
  {
  }

  /** An error without a redirect, on the first or the second request, gives back the original input. */
  lemma PlainFailureGivesInput(url: string, fetch: string -> Reply, hops: nat)
    requires IsShortUrl(url)
    requires fetch(url) == Refused("")
      || (fetch(url).Answered? && StillShort(FirstHop(url, fetch(url).location, fetch(url).configUrl))
          && fetch(FirstHop(url, fetch(url).location, fetch(url).configUrl)) == Refused(""))
    ensures Resolve(url, fetch, hops).url == url
  {
  }

  /** A redirect error towards a URL that no longer looks short returns that URL directly. */
  lemma RedirectErrorReturned(url: string, fetch: string -> Reply, hops: nat)
    requires IsShortUrl(url) && fetch(url).Refused?
    requires fetch(url).location != "" && !StillShort(fetch(url).location)
    ensures Resolve(url, fetch, hops) == Resolution(fetch(url).location, [url])
  {
  }

  /** A redirect error towards another short link is resolved again, with one hop fewer. */
  lemma RedirectErrorFollowed(url: string, fetch: string -> Reply, hops: nat)
    requires IsShortUrl(url) && fetch(url).Refused? && hops > 0
    requires fetch(url).location != "" && StillShort(fetch(url).location)
    ensures Resolve(url, fetch, hops).url == Resolve(fetch(url).location, fetch, hops - 1).url
    ensures Resolve(url, fetch, hops).requests == [url] + Resolve(fetch(url).location, fetch, hops - 1).requests
  {
  }

  /** Each level of recursion makes at most two requests. */
  lemma {:induction false} RequestBound(url: string, fetch: string -> Reply, hops: nat)
    ensures |Resolve(url, fetch, hops).requests| <= 2 * (hops + 1)
    decreases hops
  {
    if IsShortUrl(url) && hops > 0 {
      var first := fetch(url);
      if first.Refused? && first.location != "" && StillShort(first.location) {
        RequestBound(first.location, fetch, hops - 1);
      } else if first.Answered? {
        var hop := FirstHop(url, first.location, first.configUrl);
        var second := fetch(hop);
        if StillShort(hop) && second.Refused? && second.location != "" && StillShort(second.location) {
          RequestBound(second.location, fetch, hops - 1);
        }
      }
    }
  }

  /** A non-empty input never resolves to the empty string. */
  lemma {:induction false} NeverEmpty(url: string, fetch: string -> Reply, hops: nat)
    requires url != ""
    ensures Resolve(url, fetch, hops).url != ""
    decreases hops
  {
    if IsShortUrl(url) && hops > 0 {
      var first := fetch(url);
      if first.Refused? && first.location != "" && StillShort(first.location) {
        NeverEmpty(first.location, fetch, hops - 1);
      } else if first.Answered? {
        var hop := FirstHop(url, first.location, first.configUrl);
        var second := fetch(hop);
        if StillShort(hop) && second.Refused? && second.location != "" && StillShort(second.location) {
          NeverEmpty(second.location, fetch, hops - 1);
        }
      }
    }
  }
}
