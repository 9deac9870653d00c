/** The front end's URL helpers: the API base URL, API endpoint URLs and image URLs
    that point at the backend's `/uploads/` directory. The environment variable is
    a parameter. */
module Api {
  import opened Wrappers
  import Strings

  const DefaultBase: string := "http://localhost:4000"
  const UploadsPrefix: string := "/uploads/"

  /** `process.env.NEXT_PUBLIC_API_URL || 'http://localhost:4000'`: an unset or
      empty variable falls back to the local backend. */
  function BaseUrl(env: Option<string>): (base: string)
    ensures env.Some? && env.value != "" ==> base == env.value
    ensures env.None? || env.value == "" ==> base == DefaultBase
    ensures base != ""
  {
    if env.Some? && env.value != "" then env.value else DefaultBase
  }

  /** `buildApiUrl`: the base followed by the endpoint. */
  function BuildApiUrl(base: string, endpoint: string): (url: string)
    ensures |url| == |base| + |endpoint|
    ensures Strings.StartsWith(url, base) && url[|base|..] == endpoint
  {
    base + endpoint
  }

  /** `buildImageUrl`: a `/uploads/` path is served by the backend, anything else
      (an absolute storage URL) is used as it is. */
  function BuildImageUrl(base: string, path: string): (url: string)
    ensures Strings.StartsWith(path, UploadsPrefix) ==> url == BuildApiUrl(base, path)
    ensures !Strings.StartsWith(path, UploadsPrefix) ==> url == path
  {
    if Strings.StartsWith(path, UploadsPrefix) then base + path else path
  }

  /** With a base that does not itself start with `/uploads/` (an origin such as the
      default), building an image URL twice is the same as once. */
  lemma BuildImageUrlIdempotent(base: string, path: string)
    requires !Strings.StartsWith(base + UploadsPrefix, UploadsPrefix)
    ensures BuildImageUrl(base, BuildImageUrl(base, path)) == BuildImageUrl(base, path)
  {
    if Strings.StartsWith(path, UploadsPrefix) {
      assert forall k :: 0 <= k < |UploadsPrefix| ==> (base + path)[k] == (base + UploadsPrefix)[k];
      assert (base + path)[..|UploadsPrefix|] == (base + UploadsPrefix)[..|UploadsPrefix|];
    }
  }

  /** The default base is such an origin. */
  lemma DefaultBaseIsOrigin()
    ensures !Strings.StartsWith(DefaultBase + UploadsPrefix, UploadsPrefix)
  {
    assert (DefaultBase + UploadsPrefix)[0] == 'h';
  }

  /** An absolute URL, one that does not start with '/', is used as it is. */
  lemma AbsoluteUrlUnchanged(base: string, url: string)
    requires url != [] && url[0] != '/'
    ensures BuildImageUrl(base, url) == url
  {
    if |UploadsPrefix| <= |url| {
      assert url[..|UploadsPrefix|][0] != UploadsPrefix[0];
    }
  }
}
