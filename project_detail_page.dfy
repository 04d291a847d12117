/**
 * The project detail page at `/projects/:id`: the route id is looked up in
 * the project table, and the page shows either the case study or a
 * "Project Not Found" view with a link home.
 */
module ProjectDetailPage {
  import opened Optional
  import opened KeyedTable
  import opened ProjectsData
  import opened PageCommon

  /** One caption/value pair (`label` in the page) of the metadata strip under the hero image. */
  datatype MetaRow = MetaRow(caption: string, value: string)

  /** One related-project card: a link target, the image slot, the title and the tags. */
  datatype RelatedCard = RelatedCard(href: string, media: CardMedia, title: string, tags: seq<string>)

  datatype ProjectView =
    | NotFound(heading: string, backTo: string)
    | Found(project: ProjectDetail, heading: string, metadata: seq<MetaRow>, related: seq<RelatedCard>)

  /** `id ? projectsData[id] : null`: a missing or empty id finds nothing, as does an id that is not a key. */
  function Lookup(id: Option<string>): (p: Option<ProjectDetail>)
    ensures p.Some? <==> id.Some? && id.value in Keys(projectsData)
    ensures p.Some? ==> Get(projectsData, id.value) == p
  {
    if Truthy(id) then Get(projectsData, id.value)
    else
      EmptyIdIsNoKey();
      None
  }

  /** The empty string is not a key of the project table. */
  lemma EmptyIdIsNoKey()
    ensures "" !in Keys(projectsData)
  {
    ProjectTableContents();
  }

  /** The metadata strip, always in the order Services, Industry, Year, Live Website. */
  function Metadata(p: ProjectDetail): (rows: seq<MetaRow>)
    ensures |rows| == 4
    ensures [rows[0].caption, rows[1].caption, rows[2].caption, rows[3].caption]
         == ["Services:", "Industry:", "Year:", "Live Website:"]
    ensures [rows[0].value, rows[1].value, rows[2].value, rows[3].value]
         == [p.services, p.industry, p.year, p.website]
  {
    [ MetaRow("Services:", p.services),
      MetaRow("Industry:", p.industry),
      MetaRow("Year:", p.year),
      MetaRow("Live Website:", p.website) ]
  }

  /** `relatedProjects.map(...)`: one card per snapshot, in order, linking to `/projects/{id}`. */
  function RelatedCards(rs: seq<RelatedProject>): (cards: seq<RelatedCard>)
    ensures |cards| == |rs|
    ensures forall i :: 0 <= i < |rs| ==>
      && cards[i].href == ProjectLink(rs[i].id)
      && (cards[i].media.Placeholder? <==> rs[i].image == "")
      && (cards[i].media.CardImage? ==> cards[i].media == CardImage(rs[i].image, rs[i].title))
      && cards[i].title == rs[i].title
      && cards[i].tags == rs[i].tags
  {
    if rs == [] then []
    else
      var card := RelatedCard(ProjectLink(rs[0].id), Media(rs[0].image, rs[0].title), rs[0].title, rs[0].tags);
      [card] + RelatedCards(rs[1..])
  }

  /** The page for route parameter `id`. */
  function Render(id: Option<string>): (v: ProjectView)
    ensures v.NotFound? <==> Lookup(id).None?
    ensures v.NotFound? ==> v.heading == "Project Not Found" && v.backTo == HOME
    ensures v.Found? ==> Lookup(id) == Some(v.project) && v.heading == v.project.title
    ensures v.Found? ==> v.metadata == Metadata(v.project) && v.related == RelatedCards(v.project.relatedProjects)
  {
    match Lookup(id)
    case None => NotFound("Project Not Found", HOME)
    case Some(p) => Found(p, p.title, Metadata(p), RelatedCards(p.relatedProjects))
  }

  /** No id, an empty id and an unknown slug all give the not-found view. */
  lemma UnknownIdsNotFound()
    ensures Render(None) == NotFound("Project Not Found", HOME)
    ensures Render(Some("")) == NotFound("Project Not Found", HOME)
    ensures Render(Some("unknown-slug")) == NotFound("Project Not Found", HOME)
  {
    ProjectTableContents();
  }

  /** A known id renders its own record, with the record's title as the heading. */
  lemma KnownIdFound(i: nat)
    requires i < |projectsData|
    ensures Render(Some(projectsData[i].0)).Found?
    ensures Render(Some(projectsData[i].0)).project == projectsData[i].1
    ensures Render(Some(projectsData[i].0)).heading == projectsData[i].1.title
  {
    ProjectKeysDistinct();
    GetEntry(projectsData, i);
    ProjectTableContents();
  }

  /** Following any related link of a found page opens another found page, never "Project Not Found". */
  lemma RelatedLinksResolve(id: Option<string>, i: nat)
    requires Render(id).Found?
    requires i < |Render(id).related|
    ensures RouteParam(PROJECTS_PREFIX, Render(id).related[i].href) == Some(Render(id).project.relatedProjects[i].id)
    ensures Render(RouteParam(PROJECTS_PREFIX, Render(id).related[i].href)).Found?
  {
    var p := Render(id).project;
    var r := p.relatedProjects[i];
    assert (id.value, p) in projectsData;
    var k :| 0 <= k < |projectsData| && projectsData[k] == (id.value, p);
    assert Values(projectsData)[k] == p;
    RelatedProjectsExist();
    assert r.id in Keys(projectsData);
    KeysAreSlugs();
    RouteParamOfLink(PROJECTS_PREFIX, r.id);
  }
}
