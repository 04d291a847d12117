/**
 * What the pages share: the link targets they build, how the router's
 * `/projects/:id` and `/blog/:id` patterns read an id back from such a path,
 * and the image-or-placeholder rule of listing cards.
 */
module PageCommon {
  import opened Optional

  /** The home route, the target of every "Back to Home" link. */
  const HOME: string := "/"

  const PROJECTS_PREFIX: string := "/projects/"

  const BLOG_PREFIX: string := "/blog/"

  /** `/projects/${id}`. */
  function ProjectLink(id: string): (href: string)
    ensures |href| == |PROJECTS_PREFIX| + |id|
    ensures href[..|PROJECTS_PREFIX|] == PROJECTS_PREFIX && href[|PROJECTS_PREFIX|..] == id
  {
    PROJECTS_PREFIX + id
  }

  /** `/blog/${id}`. */
  function BlogLink(id: string): (href: string)
    ensures |href| == |BLOG_PREFIX| + |id|
    ensures href[..|BLOG_PREFIX|] == BLOG_PREFIX && href[|BLOG_PREFIX|..] == id
  {
    BLOG_PREFIX + id
  }

  /** A path segment the `:id` placeholder can stand for: non-empty, without a slash. */
  predicate IsSegment(s: string) {
    s != "" && '/' !in s
  }

  /**
   * The `:id` parameter of a path matched against `prefix + ":id"`: the rest of
   * the path when it starts with the prefix and the rest is one segment.
   */
  function RouteParam(prefix: string, path: string): (id: Option<string>)
    ensures id.Some? <==> |prefix| <= |path| && path[..|prefix|] == prefix && IsSegment(path[|prefix|..])
    ensures id.Some? ==> prefix + id.value == path
  {
    if |prefix| <= |path| && path[..|prefix|] == prefix && IsSegment(path[|prefix|..]) then
      assert prefix + path[|prefix|..] == path;
      Some(path[|prefix|..])
    else None
  }

  /** Every link a page builds from a one-segment id routes back to that id. */
  lemma RouteParamOfLink(prefix: string, id: string)
    requires IsSegment(id)
    ensures RouteParam(prefix, prefix + id) == Some(id)
  {
    assert (prefix + id)[..|prefix|] == prefix;
    assert (prefix + id)[|prefix|..] == id;
  }

  /** What a card shows in its image slot: the image, or a placeholder icon when the URL is falsy. */
  datatype CardMedia = CardImage(src: string, alt: string) | Placeholder

  /** `image ? <img src={image} alt={alt} /> : <placeholder />`. */
  function Media(image: string, alt: string): (m: CardMedia)
    ensures m.Placeholder? <==> image == ""
    ensures m.CardImage? ==> m.src == image && m.alt == alt
  {
    if image != "" then CardImage(image, alt) else Placeholder
  }
}
