/** `resolveImageUri`: turning a product's stored image path into a URI. */
module Images {
  import opened Types

  const Placeholder: string := "https://via.placeholder.com/80"
  const ImageBase: string := "http://localhost/starbux/Starbucks/"
  const AbsolutePrefix: string := "http"

  predicate StartsWith(s: string, prefix: string)
  {
    |prefix| <= |s| && s[..|prefix|] == prefix
  }

  /** A missing (null/undefined) or empty path gets the placeholder; a path that
      already starts with "http" is passed through; any other path is taken as
      relative to the image host. */
  function ResolveImageUri(path: Option<string>): (uri: string)
    ensures path == None || path == Some("") ==> uri == Placeholder
    ensures path.Some? && path.value != "" && StartsWith(path.value, AbsolutePrefix) ==> uri == path.value
    ensures path.Some? && path.value != "" && !StartsWith(path.value, AbsolutePrefix) ==>
              |uri| == |ImageBase| + |path.value| && uri[..|ImageBase|] == ImageBase && uri[|ImageBase|..] == path.value
  {
    if path == None || path.value == "" then Placeholder
    else if StartsWith(path.value, AbsolutePrefix) then path.value
    else ImageBase + path.value
  }

  /** Every resolved URI starts with "http", so it is never empty. */
  lemma ResolvedIsAbsolute(path: Option<string>)
    ensures StartsWith(ResolveImageUri(path), AbsolutePrefix)
  {
  }

  /** Resolving an already resolved URI changes nothing. */
  lemma ResolveIdempotent(path: Option<string>)
    ensures ResolveImageUri(Some(ResolveImageUri(path))) == ResolveImageUri(path)
  {
    ResolvedIsAbsolute(path);
  }

  /** The part after the image host; the inverse of prefixing a relative path. */
  function StripBase(uri: string): (rel: string)
    requires StartsWith(uri, ImageBase)
    ensures ImageBase + rel == uri
  {
    uri[|ImageBase|..]
  }

  /** A relative path is recovered from its resolved URI, so distinct relative
      paths never share a URI. */
  lemma RelativeRoundTrip(path: string)
    requires path != "" && !StartsWith(path, AbsolutePrefix)
    ensures StartsWith(ResolveImageUri(Some(path)), ImageBase)
    ensures StripBase(ResolveImageUri(Some(path))) == path
  {
  }
}
