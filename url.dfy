/**
 * The back office's `toAbsoluteUrl(url, base)`: upload paths returned by the
 * API are relative to the server's origin, while the configured base URL
 * points at the versioned API under it. The base is a parameter here (the
 * source reads it from the build environment).
 */
module Url {
  import opened Wrappers

  predicate StartsWith(s: string, prefix: string) {
    |prefix| <= |s| && s[..|prefix|] == prefix
  }

  predicate EndsWith(s: string, suffix: string) {
    |suffix| <= |s| && s[|s| - |suffix|..] == suffix
  }

  /** `base.replace(/\/api\/v1\/?$/, '')`: the base without a trailing "/api/v1" or "/api/v1/". */
  function Origin(base: string): (r: string)
    ensures EndsWith(base, "/api/v1/") ==> base == r + "/api/v1/"
    ensures !EndsWith(base, "/api/v1/") && EndsWith(base, "/api/v1") ==> base == r + "/api/v1"
    ensures !EndsWith(base, "/api/v1/") && !EndsWith(base, "/api/v1") ==> r == base
  {
    if EndsWith(base, "/api/v1/") then base[..|base| - 8]
    else if EndsWith(base, "/api/v1") then base[..|base| - 7]
    else base
  }

  /**
   * `toAbsoluteUrl(url, base)`; `None` is a missing url. An empty or missing
   * url gives "", an absolute one is kept, and a relative one is put after
   * the origin.
   */
  function ToAbsoluteUrl(url: Option<string>, base: string): (r: string)
    ensures url.None? || url.value == [] ==> r == []
    ensures url.Some? && StartsWith(url.value, "http") ==> r == url.value
    ensures url.Some? && url.value != [] && !StartsWith(url.value, "http") ==>
              r == Origin(base) + url.value && EndsWith(r, url.value)
  {
    match url
    case None => []
    case Some(u) =>
      if u == [] then []
      else if StartsWith(u, "http") then u
      else
        var r := Origin(base) + u;
        assert r[|r| - |u|..] == u;
        r
  }

  // ---------------------------------------------------------------------
  // Properties
  // ---------------------------------------------------------------------

  /** Both spellings of the API suffix are stripped back to the same origin. */
  lemma OriginOfApiBase(origin: string)
    ensures Origin(origin + "/api/v1") == origin
    ensures Origin(origin + "/api/v1/") == origin
  {
    var a := origin + "/api/v1";
    assert a[|a| - 7..] == "/api/v1";
    assert a[|a| - 1] == '1';
    var b := origin + "/api/v1/";
    assert b[|b| - 8..] == "/api/v1/";
  }

  /** With an http(s) origin, absolutising an absolutised url changes nothing. */
  lemma AbsoluteUrlIdempotent(url: Option<string>, base: string)
    requires StartsWith(Origin(base), "http")
    ensures ToAbsoluteUrl(Some(ToAbsoluteUrl(url, base)), base) == ToAbsoluteUrl(url, base)
  {
    if url.Some? && url.value != [] && !StartsWith(url.value, "http") {
      var r := Origin(base) + url.value;
      assert r[..4] == Origin(base)[..4];
    }
  }

  /** The development setup: an upload path under the API's origin. */
  lemma UploadExample(base: string, path: string)
    requires base == "http://localhost:3000/api/v1"
    requires path == "/uploads/banner.png"
    ensures ToAbsoluteUrl(Some(path), base) == "http://localhost:3000/uploads/banner.png"
  {
    DevelopmentOrigin(base);
    assert !StartsWith(path, "http") by {
      assert path[..4][0] != "http"[0];
    }
    UploadUrlExample(path);
  }

  lemma UploadUrlExample(path: string)
    requires path == "/uploads/banner.png"
    ensures "http://localhost:3000" + path == "http://localhost:3000/uploads/banner.png"
  {
  }

  /** The development base URL's origin. */
  lemma DevelopmentOrigin(base: string)
    requires base == "http://localhost:3000/api/v1"
    ensures Origin(base) == "http://localhost:3000"
  {
    assert base == "http://localhost:3000" + "/api/v1";
    OriginOfApiBase("http://localhost:3000");
  }
}
