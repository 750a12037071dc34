/**
 * What the routes use of a URL: the fields `new URL(url)` yields (the parse
 * itself is an input, `None` when the constructor throws), the scheme test that
 * decides whether `https://` is prepended, and the scheme strip of the search
 * ranking.
 */
module Urls {
  import opened Text

  /** A parsed URL: `origin`, `hostname` and `href` of the `URL` object. */
  datatype ParsedUrl = ParsedUrl(origin: string, hostname: string, href: string)

  const Http := "http://"
  const Https := "https://"

  /** The string starts with `http://` or `https://`. */
  predicate HasScheme(s: string) {
    StartsWith(s, Http) || StartsWith(s, Https)
  }

  /** `https://` is prepended unless the string starts with `http://` or `https://`. */
  function WithScheme(s: string): (r: string)
    ensures HasScheme(r)
    ensures HasScheme(s) ==> r == s
    ensures !HasScheme(s) ==> r == Https + s
  {
    if HasScheme(s) then s else
      assert (Https + s)[..|Https|] == Https;
      Https + s
  }

  /** Prepending a scheme once is enough. */
  lemma WithSchemeIdempotent(s: string)
    ensures WithScheme(WithScheme(s)) == WithScheme(s)
  {
  }

  /** `url.replace(/^https?:\/\//, '')`: removes one leading `https://` or `http://`. */
  function StripScheme(url: string): (r: string)
    ensures StartsWith(url, Https) ==> Https + r == url
    ensures !StartsWith(url, Https) && StartsWith(url, Http) ==> Http + r == url
    ensures !HasScheme(url) ==> r == url
  {
    if StartsWith(url, Https) then url[|Https|..]
    else if StartsWith(url, Http) then url[|Http|..]
    else url
  }

  /** Stripping undoes prepending: the text behind the added `https://` comes back. */
  lemma StripWithScheme(s: string)
    requires !HasScheme(s)
    ensures StripScheme(WithScheme(s)) == s
  {
    assert (Https + s)[..|Https|] == Https;
    assert (Https + s)[|Https|..] == s;
  }
}
