/**
 * The blog post page at `/blog/:id`: the route id is looked up in the blog
 * table, and the page shows either the article (meta line, intro, sections,
 * related posts) or a "Blog Post Not Found" view with a link home.
 */
module BlogDetailPage {
  import opened Optional
  import opened KeyedTable
  import opened BlogData
  import opened PageCommon

  /** The alt text of a section image whose section has no heading. */
  const CONTENT_IMAGE_ALT: string := "Content image"

  /** One element of the rendered article body, in document order. */
  datatype Block = Heading(text: string) | Paragraph(text: string) | Figure(src: string, alt: string)

  /** The texts of the headings among `bs`, in order. */
  function HeadingTexts(bs: seq<Block>): seq<string> {
    if bs == [] then []
    else (if bs[0].Heading? then [bs[0].text] else []) + HeadingTexts(bs[1..])
  }

  /** The texts of the paragraphs among `bs`, in order. */
  function ParagraphTexts(bs: seq<Block>): seq<string> {
    if bs == [] then []
    else (if bs[0].Paragraph? then [bs[0].text] else []) + ParagraphTexts(bs[1..])
  }

  /** The figures among `bs`, in order. */
  function FigureBlocks(bs: seq<Block>): seq<Block> {
    if bs == [] then []
    else (if bs[0].Figure? then [bs[0]] else []) + FigureBlocks(bs[1..])
  }

  /** Reading headings, paragraphs or figures off two pieces of a page is reading them off each piece in turn. */
  lemma BlocksAppend(a: seq<Block>, b: seq<Block>)
    ensures HeadingTexts(a + b) == HeadingTexts(a) + HeadingTexts(b)
    ensures ParagraphTexts(a + b) == ParagraphTexts(a) + ParagraphTexts(b)
    ensures FigureBlocks(a + b) == FigureBlocks(a) + FigureBlocks(b)
  {
    HeadingsAppend(a, b);
    ParagraphsAppend(a, b);
    FiguresAppend(a, b);
  }

  lemma {:induction false} HeadingsAppend(a: seq<Block>, b: seq<Block>)
    ensures HeadingTexts(a + b) == HeadingTexts(a) + HeadingTexts(b)
    decreases |a|
  {
    if a == [] {
      assert a + b == b;
    } else {
      assert (a + b)[0] == a[0];
      assert (a + b)[1..] == a[1..] + b;
      HeadingsAppend(a[1..], b);
    }
  }

  lemma {:induction false} ParagraphsAppend(a: seq<Block>, b: seq<Block>)
    ensures ParagraphTexts(a + b) == ParagraphTexts(a) + ParagraphTexts(b)
    decreases |a|
  {
    if a == [] {
      assert a + b == b;
    } else {
      assert (a + b)[0] == a[0];
      assert (a + b)[1..] == a[1..] + b;
      ParagraphsAppend(a[1..], b);
    }
  }

  lemma {:induction false} FiguresAppend(a: seq<Block>, b: seq<Block>)
    ensures FigureBlocks(a + b) == FigureBlocks(a) + FigureBlocks(b)
    decreases |a|
  {
    if a == [] {
      assert a + b == b;
    } else {
      assert (a + b)[0] == a[0];
      assert (a + b)[1..] == a[1..] + b;
      FiguresAppend(a[1..], b);
    }
  }

  /** `section.paragraphs.map(...)`: one paragraph block per string, in order. */
  function ParagraphBlocks(ps: seq<string>): (bs: seq<Block>)
    ensures |bs| == |ps|
    ensures ParagraphTexts(bs) == ps
    ensures HeadingTexts(bs) == [] && FigureBlocks(bs) == []
  {
    if ps == [] then []
    else
      var rest := ParagraphBlocks(ps[1..]);
      assert ([Paragraph(ps[0])] + rest)[1..] == rest;
      assert ps == [ps[0]] + ps[1..];
      [Paragraph(ps[0])] + rest
  }

  /** `section.heading || 'Content image'`. */
  function FigureAlt(heading: Option<string>): string {
    if Truthy(heading) then heading.value else CONTENT_IMAGE_ALT
  }

  /**
   * One section: its heading when the heading is truthy, then its paragraphs,
   * then its image when the image URL is truthy, captioned by the heading or
   * by "Content image".
   */
  function RenderSection(s: Section): (bs: seq<Block>)
    ensures |bs| == (if Truthy(s.heading) then 1 else 0) + |s.paragraphs| + (if Truthy(s.image) then 1 else 0)
    ensures HeadingTexts(bs) == if Truthy(s.heading) then [s.heading.value] else []
    ensures ParagraphTexts(bs) == s.paragraphs
    ensures FigureBlocks(bs) == if Truthy(s.image) then [Figure(s.image.value, FigureAlt(s.heading))] else []
    ensures Truthy(s.heading) ==> bs[0] == Heading(s.heading.value)
    ensures Truthy(s.image) ==> bs[|bs| - 1].Figure?
  {
    var head := if Truthy(s.heading) then [Heading(s.heading.value)] else [];
    var body := ParagraphBlocks(s.paragraphs);
    var figure := if Truthy(s.image) then [Figure(s.image.value, FigureAlt(s.heading))] else [];
    BlocksAppend(head, body);
    BlocksAppend(head + body, figure);
    assert HeadingTexts(figure) == [] && ParagraphTexts(figure) == [];
    assert FigureBlocks(head) == [] && ParagraphTexts(head) == [];
    head + body + figure
  }

  /**
   * `post.content.sections.map(...)`: the sections one after the other. The
   * article shows every paragraph of the post exactly once and in order,
   * every truthy heading in order, and each section's figure, in section order.
   */
  function Article(sections: seq<Section>): (bs: seq<Block>)
    ensures ParagraphTexts(bs) == AllParagraphs(sections)
    ensures HeadingTexts(bs) == PresentHeadings(sections)
    ensures FigureBlocks(bs) == SectionFigures(sections)
    decreases |sections|
  {
    if sections == [] then []
    else
      var first := RenderSection(sections[0]);
      var rest := Article(sections[1..]);
      BlocksAppend(first, rest);
      first + rest
  }

  /** Rendering two runs of sections one after the other renders each run in turn. */
  lemma {:induction false} ArticleAppend(a: seq<Section>, b: seq<Section>)
    ensures Article(a + b) == Article(a) + Article(b)
    decreases |a|
  {
    if a == [] {
      assert a + b == b;
    } else {
      assert (a + b)[0] == a[0];
      assert (a + b)[1..] == a[1..] + b;
      ArticleAppend(a[1..], b);
    }
  }

  /** A single section renders as that section's blocks and nothing else. */
  lemma ArticleOne(s: Section)
    ensures Article([s]) == RenderSection(s)
  {
    assert [s][1..] == [];
  }

  /**
   * Each section's blocks stay together and in section order: the article is
   * the blocks of the sections before section `i`, then section `i`'s own
   * heading, paragraphs and figure, then the blocks of the sections after it.
   */
  /** A sequence is what comes before position `i`, the element at `i`, and what comes after. */
  lemma SplitAround<T>(s: seq<T>, i: nat)
    requires i < |s|
    ensures s == s[..i] + ([s[i]] + s[i + 1..])
  {
  }

  lemma ConcatAssociates<T>(x: seq<T>, y: seq<T>, z: seq<T>)
    ensures x + (y + z) == x + y + z
  {
  }

  lemma SectionInPlace(sections: seq<Section>, i: nat)
    requires i < |sections|
    ensures Article(sections) == Article(sections[..i]) + RenderSection(sections[i]) + Article(sections[i + 1..])
  {
    var before, here, after := sections[..i], [sections[i]], sections[i + 1..];
    var rest := here + after;
    SplitAround(sections, i);
    var x, y, z := Article(before), RenderSection(sections[i]), Article(after);
    assert Article(sections) == x + Article(rest) by {
      ArticleAppend(before, rest);
    }
    assert Article(rest) == y + z by {
      ArticleAppend(here, after);
      ArticleOne(sections[i]);
    }
    ConcatAssociates(x, y, z);
  }

  /** Every paragraph of the post, section by section. */
  function AllParagraphs(sections: seq<Section>): seq<string> {
    if sections == [] then [] else sections[0].paragraphs + AllParagraphs(sections[1..])
  }

  /** The truthy headings of the post, section by section. */
  function PresentHeadings(sections: seq<Section>): seq<string> {
    if sections == [] then []
    else (if Truthy(sections[0].heading) then [sections[0].heading.value] else []) + PresentHeadings(sections[1..])
  }

  /** One figure per section with a truthy image, captioned by the section's heading or "Content image". */
  function SectionFigures(sections: seq<Section>): seq<Block> {
    if sections == [] then []
    else
      (if Truthy(sections[0].image) then [Figure(sections[0].image.value, FigureAlt(sections[0].heading))] else [])
      + SectionFigures(sections[1..])
  }

  /** One related-article card: a link to `/blog/{id}` around the image, the date, the reading time and the title. */
  datatype RelatedPostCard = RelatedPostCard(href: string, image: string, alt: string, date: string, readMin: int, title: string)

  /** `relatedPosts.map(...)`: one card per snapshot, in order; the image is shown even when its URL is empty. */
  function RelatedPostCards(rs: seq<RelatedPost>): (cards: seq<RelatedPostCard>)
    ensures |cards| == |rs|
    ensures forall i :: 0 <= i < |rs| ==>
      && cards[i].href == BlogLink(rs[i].id)
      && cards[i].image == rs[i].image && cards[i].alt == rs[i].title
      && cards[i].date == rs[i].date && cards[i].readMin == rs[i].readMin
      && cards[i].title == rs[i].title
  {
    if rs == [] then []
    else
      var card := RelatedPostCard(BlogLink(rs[0].id), rs[0].image, rs[0].title, rs[0].date, rs[0].readMin, rs[0].title);
      [card] + RelatedPostCards(rs[1..])
  }

  datatype BlogView =
    | NotFound(heading: string, backTo: string)
    | Found(post: BlogPost, heading: string, intro: string, body: seq<Block>, related: seq<RelatedPostCard>)

  /** `id ? blogData[id] : null`: a missing or empty id finds nothing, as does an id that is not a key. */
  function Lookup(id: Option<string>): (p: Option<BlogPost>)
    ensures p.Some? <==> id.Some? && id.value in Keys(blogData)
    ensures p.Some? ==> Get(blogData, id.value) == p
  {
    if Truthy(id) then Get(blogData, id.value)
    else
      BlogKeysAreSlugs();
      None
  }

  /** The page for route parameter `id`. */
  function Render(id: Option<string>): (v: BlogView)
    ensures v.NotFound? <==> Lookup(id).None?
    ensures v.NotFound? ==> v.heading == "Blog Post Not Found" && v.backTo == HOME
    ensures v.Found? ==> Lookup(id) == Some(v.post) && v.heading == v.post.title && v.intro == v.post.content.intro
    ensures v.Found? ==> v.body == Article(v.post.content.sections)
    ensures v.Found? ==> ParagraphTexts(v.body) == AllParagraphs(v.post.content.sections)
    ensures v.Found? ==> HeadingTexts(v.body) == PresentHeadings(v.post.content.sections)
    ensures v.Found? ==> FigureBlocks(v.body) == SectionFigures(v.post.content.sections)
    ensures v.Found? ==> v.related == RelatedPostCards(v.post.relatedPosts)
  {
    match Lookup(id)
    case None => NotFound("Blog Post Not Found", HOME)
    case Some(p) => Found(p, p.title, p.content.intro, Article(p.content.sections), RelatedPostCards(p.relatedPosts))
  }

  /** No id, an empty id and an unknown slug all give the not-found view. */
  lemma UnknownIdsNotFound()
    ensures Render(None) == NotFound("Blog Post Not Found", HOME)
    ensures Render(Some("")) == NotFound("Blog Post Not Found", HOME)
    ensures Render(Some("unknown-slug")) == NotFound("Blog Post Not Found", HOME)
  {
    BlogTableContents();
  }

  /** Every post of the listing opens its own page under `/blog/{id}`, titled with its title. */
  lemma ListedPostFound(post: BlogPost)
    requires post in BlogList()
    ensures RouteParam(BLOG_PREFIX, BlogLink(post.id)) == Some(post.id)
    ensures Render(Some(post.id)).Found? && Render(Some(post.id)).post == post
    ensures Render(Some(post.id)).heading == post.title
  {
    BlogListLookup(post);
    assert post.id in Keys(blogData);
    BlogKeysAreSlugs();
    RouteParamOfLink(BLOG_PREFIX, post.id);
  }

  /** Following any related-article link of a found page opens another found page, never "Blog Post Not Found". */
  lemma RelatedLinksResolve(id: Option<string>, i: nat)
    requires Render(id).Found?
    requires i < |Render(id).related|
    ensures RouteParam(BLOG_PREFIX, Render(id).related[i].href) == Some(Render(id).post.relatedPosts[i].id)
    ensures Render(RouteParam(BLOG_PREFIX, Render(id).related[i].href)).Found?
  {
    var p := Render(id).post;
    var r := p.relatedPosts[i];
    assert r.id in Keys(blogData) by {
      assert Get(blogData, id.value) == Some(p);
      StoredRelatedPostExists(id.value, p, i);
    }
    BlogKeysAreSlugs();
    RouteParamOfLink(BLOG_PREFIX, r.id);
  }

  /** A related post of a post stored in the table is itself a key of the table. */
  lemma StoredRelatedPostExists(key: string, p: BlogPost, i: nat)
    requires Get(blogData, key) == Some(p)
    requires i < |p.relatedPosts|
    ensures p.relatedPosts[i].id in Keys(blogData)
  {
    var k :| 0 <= k < |blogData| && blogData[k] == (key, p);
    assert BlogList()[k] == p;
    RelatedPostsExist();
  }

  /** The `design-principles` page renders its own post, with that post's sections and related snapshots. */
  lemma DesignPrinciplesFound()
    ensures Render(Some("design-principles")).Found?
    ensures Render(Some("design-principles")).post == DesignPrinciplesPost
    ensures Render(Some("design-principles")).related == RelatedPostCards(DesignPrinciplesPost.relatedPosts)
  {
    BlogLookups();
  }

  /**
   * The sections of the `design-principles` post: five truthy headings, the
   * first "1. Simplicity is Sophistication", and two images, captioned by the
   * headings of sections 1 and 3, so its article shows five headings and
   * those two figures.
   */
  lemma DesignPrinciplesSections()
    ensures |PresentHeadings(DesignPrinciplesPost.content.sections)| == 5
    ensures PresentHeadings(DesignPrinciplesPost.content.sections)[0] == "1. Simplicity is Sophistication"
    ensures |SectionFigures(DesignPrinciplesPost.content.sections)| == 2
    ensures SectionFigures(DesignPrinciplesPost.content.sections)[0].alt == "1. Simplicity is Sophistication"
    ensures SectionFigures(DesignPrinciplesPost.content.sections)[1].alt == "3. Consistency Builds Trust"
  {
  }
}
