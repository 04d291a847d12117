# Portfolio site core: pinned titles, content tables and page lookups

This project models the logic inside a static portfolio site written in
React and TypeScript. It has three parts.

- **The pinned-title hook** (`usePinnedTitle`). A section title is pinned a
  fixed distance below the viewport top while its tall container scrolls
  past. When the container runs out, the title is parked at the container's
  bottom edge. Module `PinnedTitle` holds:
  - the pure three-way decision over the container and title rectangles
    (`Directive`);
  - the missing-element guard (`Handle`);
  - a class `PinnedTitleHook` with the `style` state and the set of window
    listeners. Mounting adds them, cleanup removes them, and a change of
    offset re-runs the effect.
- **The content tables** (`projectsData`, `blogData`). These are constant
  object literals keyed by the slug used in routes:
  - `KeyedTable` models an object literal as its entries in declaration
    order, so `Object.values` and property access are functions of that
    sequence.
  - `ProjectsData` and `BlogData` hold the records as they appear in the
    source, the derived listings, and the integrity facts about them:
    - keys equal ids;
    - related ids are keys;
    - nothing relates to itself;
    - related snapshots agree with their targets.
- **The pages**:
  - `ProjectsPage` models the category filter and its `activeCategory`
    state as a class.
  - `ProjectDetailPage` and `BlogDetailPage` model the route id lookup, the
    not-found branch, the metadata strip, the section rules (heading and
    image only when truthy, image alt falling back to "Content image") and
    the related-card links.
  - `PageCommon` holds the link builders and the `/projects/:id` and
    `/blog/:id` route patterns. With these, following any card or related
    link is proved to open a page that is found.

JavaScript semantics are written out where they matter:
- `id ? table[id] : null` treats an empty id as missing.
- `section.heading &&`, `section.image &&` and `image ? … : …` treat the
  empty string as absent.
- `cardTitle ?? title` falls back only when `cardTitle` is absent.
- `Math.max(0, offsetTopPx)` is `Threshold`.

Geometry is in `real`.

A container whose top is still below the threshold does not always leave
the title in normal flow. Suppose the title is taller than the distance from
the threshold to the container bottom, that is
`bottom - height <= threshold`, and the container is not empty. Then the
bottom-stop test at `src/hooks/usePinnedTitle.ts:45` already holds and the
title is parked. `PinnedTitle.StuckExactly` states this condition for every
geometry. `PinnedTitle.TallTitleParksBeforeThreshold` is one concrete
geometry: a 50-pixel container at 100 with a 200-pixel title.
`PinnedTitle.DefaultBeforeThresholdWhenTitleFits` proves that a title which
fits in its container keeps its natural position below the threshold.

## Model

| member | source | states |
|---|---|---|
| PinnedTitle.Threshold | src/hooks/usePinnedTitle.ts:28 | The pin threshold is never negative, never below the offset, and is either 0 or the offset. |
| PinnedTitle.Directive | src/hooks/usePinnedTitle.ts:28-56 | Exactly one of three styles is chosen. Fixed comes iff the container top has reached the threshold and the container bottom minus the title height is still below it; it carries the threshold, the container's left and width, and z-index 30. Parked at the bottom (0, 0, 0) comes iff not fixed, the remaining container is no taller than the title, and the container is non-empty. Otherwise the style is empty. |
| PinnedTitle.StuckExactly | src/hooks/usePinnedTitle.ts:31-53 | The bottom-parked style appears iff `bottom - height <= top` and `top < bottom`; the failed pin test adds nothing. |
| PinnedTitle.DefaultExactly | src/hooks/usePinnedTitle.ts:31-56 | The empty style appears iff the container is below the threshold with room for the title, or it is empty and without room. |
| PinnedTitle.NotFixedBeforeThreshold | src/hooks/usePinnedTitle.ts:31 | A container whose top is below the threshold never pins its title. |
| PinnedTitle.DefaultBeforeThresholdWhenTitleFits | src/hooks/usePinnedTitle.ts:31-56 | Below the threshold, a title that fits in its container keeps the empty style. |
| PinnedTitle.TallTitleParksBeforeThreshold | src/hooks/usePinnedTitle.ts:45-53 | In one concrete geometry (a 50-pixel container at 100, a 200-pixel title, offset 10) the container is still below the threshold, yet the title is taller than the distance from the threshold to the container bottom, so it is already parked. |
| PinnedTitle.FixedTitleInsideContainer | src/hooks/usePinnedTitle.ts:31-41 | A pinned title sits at a non-negative top, at or below the container top, and ends above the container bottom. |
| PinnedTitle.NegativeOffsetIsZero | src/hooks/usePinnedTitle.ts:28 | Any non-positive offset gives the same style as offset 0. |
| PinnedTitle.ScrollingDownIsMonotone | src/hooks/usePinnedTitle.ts:31-56 | For a non-empty container, scrolling down never moves the style backwards through empty, fixed, parked. |
| PinnedTitle.Handle | src/hooks/usePinnedTitle.ts:20-57 | With either element missing the style is unchanged; with both present it is the directive of their rectangles. |
| PinnedTitle.HandleForgetsHistory | src/hooks/usePinnedTitle.ts:20-57 | With both elements present, the new style does not depend on the previous one. |
| PinnedTitle.HandleIsIdempotent | src/hooks/usePinnedTitle.ts:20-57 | Handling the same geometry twice gives the same style as handling it once. |
| PinnedTitle.Registration | src/hooks/usePinnedTitle.ts:61-62 | One effect run registers exactly two listeners: a passive scroll listener and a non-passive resize listener, both holding that run's handler. |
| PinnedTitle.PinnedTitleHook.constructor | src/hooks/usePinnedTitle.ts:14-17 | A new hook has the given offset and the empty style, and has no listeners. |
| PinnedTitle.PinnedTitleHook.HandleNow | src/hooks/usePinnedTitle.ts:60 | Running the handler replaces the style by `Handle` of the old style and the current DOM, and changes nothing else. |
| PinnedTitle.PinnedTitleHook.RunEffect | src/hooks/usePinnedTitle.ts:19-62 | The effect handles the geometry once, then its two listeners become the whole registered set. The offset is kept. |
| PinnedTitle.PinnedTitleHook.Cleanup | src/hooks/usePinnedTitle.ts:63-66 | Cleanup removes exactly the current run's two listeners and leaves nothing registered. Style and offset are unchanged. |
| PinnedTitle.PinnedTitleHook.Rerender | src/hooks/usePinnedTitle.ts:67 | The same offset changes nothing. A new offset replaces the listeners by a fresh run's pair that captures the new offset, and re-handles the geometry. |
| PinnedTitle.PinnedTitleHook.Dispatch | src/hooks/usePinnedTitle.ts:61-65 | While mounted, an event runs the handler with the current offset. After cleanup, an event leaves the style unchanged. |
| KeyedTable.Keys | src/lib/projects-data.ts:43-201 | The keys in declaration order, one per entry. |
| KeyedTable.Values | src/lib/projects-data.ts:210 | `Object.values`: the values in declaration order, one per entry. |
| KeyedTable.Get | src/pages/project-detail.tsx:84 | Property access finds a value iff the key is a key of the table, and the value found belongs to an entry under that key. |
| KeyedTable.GetEntry | src/lib/projects-data.ts:43-201 | With distinct keys, looking up each entry's key returns that entry's value. |
| KeyedTable.ValuesAreFound | src/lib/blog-data.ts:274 | With distinct keys, every listed value is found under some key. |
| ProjectsData.ListItems | src/lib/projects-data.ts:210-217 | One card per project, in the same order. Each card copies the id, takes its title from `cardTitle ?? title` and its image from `heroImage`, and copies the tags. |
| ProjectsData.ProjectList | src/lib/projects-data.ts:210-217 | `projectList`: one card per table entry, in declaration order; each card has the record's id, its `cardTitle ?? title`, its hero image and its tags. |
| ProjectsData.ProjectKeysAreIds | src/lib/projects-data.ts:44-45 | Every key of the project table equals its record's id. |
| ProjectsData.ProjectKeysDistinct | src/lib/projects-data.ts:44-149 | No project key is declared twice. |
| ProjectsData.ProjectListInDeclarationOrder | src/lib/projects-data.ts:210-217 | The listing is boldstream, innovatex, aether-chair, one card per entry. The first card shows the card title "Boldstream", not the record title "CoreVision". |
| ProjectsData.ProjectListLookup | src/lib/projects-data.ts:210-217 | Looking up any card's id returns the record the card was made from. |
| ProjectsData.ProjectTableContents | src/lib/projects-data.ts:43-201 | The keys and values of the table, in declaration order. |
| ProjectsData.KeysAreSlugs | src/lib/projects-data.ts:44-149 | Every project key is non-empty and has no slash. |
| ProjectsData.ProjectListContents | src/lib/projects-data.ts:54 | The three cards' ids and tag lists. |
| ProjectsData.RelatedProjectsExist | src/lib/projects-data.ts:80-199 | Every related project id is a key of the table. |
| ProjectsData.NoProjectRelatesToItself | src/lib/projects-data.ts:80-199 | No project lists itself among its related projects. |
| ProjectsData.RelatedSnapshotsAreCurrent | src/lib/projects-data.ts:80-199 | Every related snapshot has the id, title, hero image and tags of the record it points to. |
| ProjectsData.ProjectLookups | src/lib/projects-data.ts:43-201 | Each declared key looks up its own record. |
| ProjectsData.CategoriesShape | src/lib/projects-data.ts:34-41 | There are six distinct categories, and the first is "All projects". |
| BlogData.BlogList | src/lib/blog-data.ts:274 | `blogList` holds the table's posts in declaration order, one per entry. |
| BlogData.BlogKeysAreIds | src/lib/blog-data.ts:31-32 | Every key of the blog table equals its post's id. |
| BlogData.BlogKeysDistinct | src/lib/blog-data.ts:31-209 | No blog key is declared twice. |
| BlogData.BlogTableContents | src/lib/blog-data.ts:30-272 | The keys and posts of the table, in declaration order. |
| BlogData.BlogKeysAreSlugs | src/lib/blog-data.ts:31-209 | Every blog key is non-empty and has no slash. |
| BlogData.BlogLookups | src/lib/blog-data.ts:30-272 | Each declared key looks up its own post. |
| BlogData.BlogListLookup | src/lib/blog-data.ts:274 | Every listed post is found again under its own id. |
| BlogData.RelatedPostsExist | src/lib/blog-data.ts:85-270 | Every related post id is a key of the table. |
| BlogData.RelatedPostsShape | src/lib/blog-data.ts:85-270 | Every post has exactly two related posts, and none of them is the post itself. |
| BlogData.RelatedSnapshotsAreCurrent | src/lib/blog-data.ts:85-270 | Every related snapshot has the id, title, image, date and reading time of the post it points to. |
| BlogData.DesignPrinciplesScenario | src/lib/blog-data.ts:31-106 | design-principles reads in 10 minutes and has category Design. Its first related post is challenging-project, snapshot and post both at 2 minutes. |
| PageCommon.ProjectLink | src/pages/projects.tsx:193 | A project link starts with `/projects/` and continues with exactly the id. |
| PageCommon.BlogLink | src/pages/blog-detail.tsx:273 | A blog link starts with `/blog/` and continues with exactly the id. |
| PageCommon.RouteParam | src/App.tsx:22-23 | A path matches `prefix + :id` iff it starts with the prefix and the rest is one non-empty segment. The parameter is that rest. |
| PageCommon.RouteParamOfLink | src/App.tsx:22-23 | A link built from a one-segment id routes back to that id. |
| PageCommon.Media | src/pages/projects.tsx:197-231 | A placeholder appears iff the image URL is empty. Otherwise the image shows with the given alt text. |
| ProjectsPage.FilterByTag | src/pages/projects.tsx:90 | The tag filter keeps exactly the items whose tags include the tag, as an order-preserving subsequence no longer than the input. |
| ProjectsPage.FilteredProjects | src/pages/projects.tsx:87-90 | "All projects" gives the whole listing. Any other category gives exactly the listed cards tagged with it, in listing order. |
| ProjectsPage.FilterOfThree | src/pages/projects.tsx:90 | On a three-card listing, the filter keeps each card iff it has the tag, in order. |
| ProjectsPage.FilterKeepsMultiplicity | src/pages/projects.tsx:90 | The filter keeps every tagged card as often as it occurs and drops every other card. |
| ProjectsPage.FilteredIdsOfThree | src/pages/projects.tsx:90 | The ids the filter keeps from a three-card listing. |
| ProjectsPage.FilteredIdsOnCurrentData | src/pages/projects.tsx:87-90 | On the current data, each card shows iff the category is "All projects" or one of its tags. |
| ProjectsPage.FilterBranding | src/pages/projects.tsx:90 | "Branding" shows only aether-chair. |
| ProjectsPage.FilterMotion | src/pages/projects.tsx:90 | "Motion" shows innovatex, then aether-chair. |
| ProjectsPage.ActiveFlags | src/pages/projects.tsx:161-162 | There is one flag per button, and a flag is set iff its category is the active one. |
| ProjectsPage.ExactlyOneActive | src/pages/projects.tsx:162 | Exactly one button is active, whatever the active category. |
| ProjectsPage.Cards | src/pages/projects.tsx:190-245 | One card per filtered item, in order. Each card links to `/projects/{id}` and shows the image or placeholder, the title and the tags. |
| ProjectsPage.CardLinksResolve | src/pages/projects.tsx:193 | Every card on the page, for any category, routes to a found project page. |
| ProjectsPage.ProjectsPageState.constructor | src/pages/projects.tsx:83-85 | The page starts with "All projects" active. |
| ProjectsPage.ProjectsPageState.Click | src/pages/projects.tsx:167 | Clicking a button makes its category the active one. |
| ProjectsPage.ProjectsPageState.Shown | src/pages/projects.tsx:87-90 | The shown list is the filter of the active category, so always an order-preserving subsequence of the listing. |
| ProjectDetailPage.Lookup | src/pages/project-detail.tsx:84 | A record is found iff an id is given and it is a key. Then it is the table's value under that key. |
| ProjectDetailPage.Metadata | src/pages/project-detail.tsx:185-190 | Four rows, in the order Services, Industry, Year, Live Website, with the record's values. |
| ProjectDetailPage.RelatedCards | src/pages/project-detail.tsx:276-319 | One card per related project, in order. Each card links to `/projects/{id}`, has a placeholder iff the image is empty, and shows the title and tags. |
| ProjectDetailPage.Render | src/pages/project-detail.tsx:84-103 | The not-found view, headed "Project Not Found" and linking home, renders iff the lookup fails. Otherwise the found record renders under its title, with its metadata and related cards. |
| ProjectDetailPage.UnknownIdsNotFound | src/pages/project-detail.tsx:90-103 | No id, an empty id and an unknown slug all give the not-found view. |
| ProjectDetailPage.KnownIdFound | src/pages/project-detail.tsx:84 | Every key renders its own record, titled with the record's title. |
| ProjectDetailPage.RelatedLinksResolve | src/pages/project-detail.tsx:279 | Every related link routes back to the related id and opens a found page. |
| BlogDetailPage.ParagraphBlocks | src/pages/blog-detail.tsx:240-244 | One paragraph per string, in order, and nothing else. |
| BlogDetailPage.RenderSection | src/pages/blog-detail.tsx:233-255 | A section renders its heading first, only when the heading is truthy, then all its paragraphs in order. Its image comes last, only when the URL is truthy, with alt text from the heading or "Content image". |
| BlogDetailPage.Article | src/pages/blog-detail.tsx:232-256 | Over the whole post: every paragraph in section order, every truthy heading in order, and exactly the figures of the sections with a truthy image, each captioned by its heading or "Content image", in section order. |
| BlogDetailPage.ArticleAppend | src/pages/blog-detail.tsx:232-256 | Rendering two runs of sections back to back gives the first run's blocks, then the second run's blocks. |
| BlogDetailPage.ArticleOne | src/pages/blog-detail.tsx:233-255 | A single section renders as exactly that section's blocks. |
| BlogDetailPage.SectionInPlace | src/pages/blog-detail.tsx:232-256 | Each section's heading, paragraphs and figure stay together in section order: the article is the blocks of the earlier sections, then this section's blocks, then the blocks of the later sections. |
| BlogDetailPage.RelatedPostCards | src/pages/blog-detail.tsx:270-302 | One card per related post, in order. Each links to `/blog/{id}` and shows the image (alt is the title), the date, the reading time and the title. |
| BlogDetailPage.Lookup | src/pages/blog-detail.tsx:28 | A post is found iff an id is given and it is a key. Then it is the table's value under that key. |
| BlogDetailPage.Render | src/pages/blog-detail.tsx:28-256 | The not-found view, headed "Blog Post Not Found" and linking home, renders iff the lookup fails. Otherwise the post renders under its title with its intro, its article (so its paragraphs, truthy headings and section figures in order), and its related cards. |
| BlogDetailPage.UnknownIdsNotFound | src/pages/blog-detail.tsx:91-101 | No id, an empty id and an unknown slug all give the not-found view. |
| BlogDetailPage.ListedPostFound | src/pages/blog-detail.tsx:28 | Every listed post's link routes to its id and renders that post under its title. |
| BlogDetailPage.RelatedLinksResolve | src/pages/blog-detail.tsx:273 | Every related link routes back to the related id and opens a found page. |
| BlogDetailPage.DesignPrinciplesFound | src/pages/blog-detail.tsx:28 | `/blog/design-principles` renders that post with its related cards. |
| BlogDetailPage.DesignPrinciplesSections | src/lib/blog-data.ts:43-83 | design-principles has five truthy headings, the first "1. Simplicity is Sophistication", and two section figures captioned by the headings of sections 1 and 3. |

## Left out

- Browser I/O: `getBoundingClientRect`, `window.addEventListener` and `removeEventListener`, and `window.scrollTo`. The rectangles are inputs (`Dom`), the registered listeners are a set-valued field, and the scroll-to-top effects of both detail pages are not modelled.
- The `passive` option of the scroll listener is recorded but has no modelled effect.
- CSS values: the `${top}px` strings and `position` keywords. Positions are numbers, and the three styles are constructors.
- JavaScript numbers: rounding, `NaN` and infinities. Geometry is exact `real`.
- React rendering itself: re-render scheduling and `setStyle` batching. The `Rerender` method stands for a render whose effect dependencies are compared.
- Property access on prototype keys such as `projectsData["constructor"]` or `blogData["__proto__"]`. In the source such an id yields a truthy non-record, so the page throws while rendering instead of showing the not-found view. `Get` looks up own keys only, so the model shows not-found for them.
- Router details: percent-decoding, trailing slashes, and react-router's default case-insensitive matching of `/projects/:id` and `/blog/:id` (`/PROJECTS/boldstream` matches too). `RouteParam` matches a plain, case-sensitive prefix followed by one non-empty segment. The rest of `src/App.tsx` is not part of this model.
- The parts of both detail pages that only display record fields: the hero, overview and scope of work, author and meta line. Each view carries the whole record. The "{readMin} minute read" text is kept as the number.
- Menus, sheets, footers, `src/pages/home.tsx` and `src/pages/contact.tsx`: presentation without logic.
