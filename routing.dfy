/** The path rules of the application configuration: one permanent redirect
    and one rewrite, each over a single `:siteSlug` segment, plus the
    fallback between the two tag-manager environment variables. */
module Routing {
  import opened Common

  /** What a `:name` parameter matches: one non-empty path segment. */
  predicate Segment(s: string) {
    s != [] && '/' !in s
  }

  /** Matches `/:siteSlug` followed by `suffix`, giving the segment. */
  function MatchSlug(path: string, suffix: string): (r: Option<string>)
    ensures r.Some? ==> Segment(r.value) && path == "/" + r.value + suffix
  {
    if |path| >= 2 + |suffix| && path[0] == '/' && EndsWith(path, suffix) then
      var slug := path[1..|path| - |suffix|];
      assert path == "/" + slug + suffix by {
        assert path == path[..1] + path[1..|path| - |suffix|] + path[|path| - |suffix|..];
      }
      if Segment(slug) then Some(slug) else None
    else None
  }

  /** Every path of the form `/{segment}{suffix}` is matched, and the segment
      recovered. */
  lemma MatchSlugComplete(slug: string, suffix: string)
    requires Segment(slug)
    ensures MatchSlug("/" + slug + suffix, suffix) == Some(slug)
  {
    var path := "/" + slug + suffix;
    assert path[|path| - |suffix|..] == suffix;
    assert path[1..|path| - |suffix|] == slug;
  }

  /** Where a request path goes under the two rules. The redirect is checked
      before the rewrite, as the framework checks redirects first; `permanent`
      is the rule's flag. */
  datatype Routed =
    | Redirected(location: string, permanent: bool)
    | Rewritten(target: string)
    | Unchanged

  const IndexSuffix := "/index"
  const StyleSuffix := "/style.css"

  function Route(path: string): (r: Routed)
    ensures r.Redirected? ==>
      exists s :: Segment(s) && path == "/" + s + IndexSuffix && r == Redirected("/" + s, true)
    ensures r.Rewritten? ==>
      exists s :: Segment(s) && path == "/" + s + StyleSuffix && r == Rewritten("/api/" + s + "/css")
  {
    match MatchSlug(path, IndexSuffix)
    case Some(s) => Redirected("/" + s, true)
    case None =>
      match MatchSlug(path, StyleSuffix)
      case Some(s) => Rewritten("/api/" + s + "/css")
      case None => Unchanged
  }

  /** `/{s}/index` redirects permanently to `/{s}`, carrying the segment over. */
  lemma RedirectIndex(s: string)
    requires Segment(s)
    ensures Route("/" + s + IndexSuffix) == Redirected("/" + s, true)
  {
    MatchSlugComplete(s, IndexSuffix);
  }

  /** `/{s}/style.css` is served from `/api/{s}/css`, carrying the segment over. */
  lemma RewriteStyle(s: string)
    requires Segment(s)
    ensures Route("/" + s + StyleSuffix) == Rewritten("/api/" + s + "/css")
  {
    MatchSlugComplete(s, StyleSuffix);
    assert !EndsWith("/" + s + StyleSuffix, IndexSuffix) by {
      var p := "/" + s + StyleSuffix;
      assert p[|p| - 1] == 's';
    }
  }

  /** A path is left as it is exactly when it has neither shape. */
  lemma UnchangedIffNoShape(path: string)
    ensures Route(path) == Unchanged <==>
      forall s :: Segment(s) ==> path != "/" + s + IndexSuffix && path != "/" + s + StyleSuffix
  {
    if Route(path) == Unchanged {
      forall s | Segment(s) ensures path != "/" + s + IndexSuffix && path != "/" + s + StyleSuffix {
        MatchSlugComplete(s, IndexSuffix);
        MatchSlugComplete(s, StyleSuffix);
      }
    }
  }

  /** The target of the redirect is not redirected or rewritten again. */
  lemma RedirectSettles(path: string)
    requires Route(path).Redirected?
    ensures Route(Route(path).location) == Unchanged
  {
    var s :| Segment(s) && path == "/" + s + IndexSuffix && Route(path) == Redirected("/" + s, true);
    NotTwoSegments(s, Route(path).location);
  }

  /** The target of the rewrite is not redirected or rewritten again. */
  lemma RewriteSettles(path: string)
    requires Route(path).Rewritten?
    ensures Route(Route(path).target) == Unchanged
  {
    var s :| Segment(s) && path == "/" + s + StyleSuffix && Route(path) == Rewritten("/api/" + s + "/css");
    var target := "/api/" + s + "/css";
    forall t | Segment(t) ensures target != "/" + t + IndexSuffix && target != "/" + t + StyleSuffix {
      var u := "/" + t + IndexSuffix;
      var v := "/" + t + StyleSuffix;
      assert target[|target| - 1] == 's' && u[|u| - 1] == 'x';
      assert target[|target| - 4] == '/' && v[|v| - 4] == '.';
    }
  }

  /** `/` followed by one segment has no second segment for either rule. */
  lemma NotTwoSegments(s: string, location: string)
    requires Segment(s) && location == "/" + s
    ensures Route(location) == Unchanged
  {
    forall t | Segment(t) ensures location != "/" + t + IndexSuffix && location != "/" + t + StyleSuffix {
      SlashAfterSegment(s, location, t, IndexSuffix);
      SlashAfterSegment(s, location, t, StyleSuffix);
    }
  }

  /** `/{s}` differs from `/{t}{suffix}` when the suffix starts a new segment. */
  lemma SlashAfterSegment(s: string, location: string, t: string, suffix: string)
    requires Segment(s) && location == "/" + s
    requires suffix != [] && suffix[0] == '/'
    ensures location != "/" + t + suffix
  {
    var u := "/" + t + suffix;
    assert u[1 + |t|] == '/';
    if |u| == |location| {
      assert location[1 + |t|] == s[|t|];
    }
  }

  /** `NEXT_PUBLIC_GOOGLE_TAG_MANAGER_ID` as the build exposes it:
      `GOOGLE_TAG_MANAGER_ID || NEXT_PUBLIC_GOOGLE_TAG_MANAGER_ID`. */
  function TagManagerId(serverId: Option<string>, publicId: Option<string>): (r: Option<string>)
    ensures Truthy(serverId) ==> r == serverId
    ensures !Truthy(serverId) ==> r == publicId
  {
    if Truthy(serverId) then serverId else publicId
  }

  /** An id is exposed iff one of the two variables holds one, and the server
      variable wins when both do. */
  lemma TagManagerIdExposed(serverId: Option<string>, publicId: Option<string>)
    ensures Truthy(TagManagerId(serverId, publicId)) <==> Truthy(serverId) || Truthy(publicId)
    ensures Truthy(serverId) && Truthy(publicId) ==> TagManagerId(serverId, publicId) == serverId
  {
  }
}
