/**
 * The project table: one constant record per case study, keyed by the id
 * used in `/projects/:id` routes, and the card listing derived from it.
 */
module ProjectsData {
  import opened Optional
  import opened KeyedTable

  /** A denormalised snapshot of another project, shown as a related card. */
  datatype RelatedProject = RelatedProject(id: string, title: string, image: string, tags: seq<string>)

  datatype Overview = Overview(text: string, secondText: string, image: string)

  datatype ScopeItem = ScopeItem(title: string, description: string)

  datatype ScopeOfWork = ScopeOfWork(intro: string, items: seq<ScopeItem>, image: string)

  /** One case study; `cardTitle` is optional. */
  datatype ProjectDetail = ProjectDetail(
    id: string,
    title: string,
    cardTitle: Option<string>,
    heroImage: string,
    services: string,
    industry: string,
    year: string,
    website: string,
    tags: seq<string>,
    overview: Overview,
    scopeOfWork: ScopeOfWork,
    relatedProjects: seq<RelatedProject>)

  /** The category filter buttons, in display order; the first one means "no filter". */
  const PROJECT_CATEGORIES: seq<string> :=
    ["All projects", "Branding", "Web design", "Marketing", "Development", "Motion"]

  const ALL_PROJECTS: string := "All projects"

  /** The `boldstream` entry of the project table. */
  const BoldstreamProject: ProjectDetail := ProjectDetail(
    id := "boldstream",
    title := "CoreVision",
    cardTitle := Some("Boldstream"),
    heroImage := "https://images.unsplash.com/photo-1557821552-17105176677c?auto=format&fit=crop&w=1600&q=80",
    services := "Website Design",
    industry := "Software",
    year := "2025",
    website := "www.boldstream.com",
    tags := ["Marketing", "Web design", "Development"],
    overview := Overview(
      text := "Discharge of stitching even the fully which be to not rome; Alone, the of go. Of years, mental as shown down stiff copy of he countries are emphasis called attribute head because of understand sight as it long labour, would anyone paint, approach thoroughly, to example",
      secondText := "Period, to his millions she to the vices the of you bread at he satisfaction dressing irregular harmonic years human my lie looked from aged was by which plot however up that while person, week the star different fur I to for it whose aside, right his honour; Have arduous would films so at power decisions, a and each dense, the it secure dissolute you a elucidates gradually and the then, and employed hand. Was a seemed for far only an links by checks, writer of, even that a peacefully absolutely was abandon gradually it his into to be that.",
      image := "https://images.unsplash.com/photo-1522542550221-31fd19575a2d?auto=format&fit=crop&w=1600&q=80"),
    scopeOfWork := ScopeOfWork(
      intro := "Outline the services provided, such as strategy, design, development, branding, or marketing Example:",
      items := [
        ScopeItem("Website design and development:", "Firstly, you might ask what is Hubstaff? Well, Hubstaff is like your all-in-one timekeeping wizard, designed to bring order to the chaos."),
        ScopeItem("E-commerce integration:", "The classes and uneasiness, his ticking service, what something it bear extended had sooner sort.")
      ],
      image := "https://images.unsplash.com/photo-1460925895917-afdab827c52f?auto=format&fit=crop&w=1400&q=80"),
    relatedProjects := [
      RelatedProject(
        id := "innovatex",
        title := "InnovateX",
        image := "https://images.unsplash.com/photo-1451187580459-43490279c0fa?auto=format&fit=crop&w=1600&q=80",
        tags := ["Web design", "Motion", "Development"]),
      RelatedProject(
        id := "aether-chair",
        title := "Aether Chair",
        image := "https://images.unsplash.com/photo-1503602642458-232111445657?auto=format&fit=crop&w=1600&q=80",
        tags := ["Branding", "Motion", "Development"])
    ])

  /** The `innovatex` entry of the project table. */
  const InnovatexProject: ProjectDetail := ProjectDetail(
    id := "innovatex",
    title := "InnovateX",
    cardTitle := Some("InnovateX"),
    heroImage := "https://images.unsplash.com/photo-1451187580459-43490279c0fa?auto=format&fit=crop&w=1600&q=80",
    services := "Web Design",
    industry := "Tech",
    year := "2024",
    website := "www.innovatex.com",
    tags := ["Web design", "Motion", "Development"],
    overview := Overview(
      text := "InnovateX represents the cutting edge of modern web design, combining innovative UI patterns with seamless user experiences. This project pushed the boundaries of what's possible with web technologies.",
      secondText := "Through careful attention to detail and a focus on performance, we created a digital experience that not only looks beautiful but performs exceptionally well across all devices and platforms.",
      image := "https://images.unsplash.com/photo-1519389950473-47ba0277781c?auto=format&fit=crop&w=1600&q=80"),
    scopeOfWork := ScopeOfWork(
      intro := "Comprehensive design and development services:",
      items := [
        ScopeItem("UI/UX Design:", "Created a modern, intuitive interface that guides users effortlessly through complex workflows."),
        ScopeItem("Motion Design:", "Implemented sophisticated animations and micro-interactions that enhance the user experience.")
      ],
      image := "https://images.unsplash.com/photo-1551288049-bebda4e38f71?auto=format&fit=crop&w=1400&q=80"),
    relatedProjects := [
      RelatedProject(
        id := "boldstream",
        title := "CoreVision",
        image := "https://images.unsplash.com/photo-1557821552-17105176677c?auto=format&fit=crop&w=1600&q=80",
        tags := ["Marketing", "Web design", "Development"]),
      RelatedProject(
        id := "aether-chair",
        title := "Aether Chair",
        image := "https://images.unsplash.com/photo-1503602642458-232111445657?auto=format&fit=crop&w=1600&q=80",
        tags := ["Branding", "Motion", "Development"])
    ])

  /** The `aether-chair` entry of the project table. */
  const AetherChairProject: ProjectDetail := ProjectDetail(
    id := "aether-chair",
    title := "Aether Chair",
    cardTitle := Some("Aether Chair"),
    heroImage := "https://images.unsplash.com/photo-1503602642458-232111445657?auto=format&fit=crop&w=1600&q=80",
    services := "Product Design",
    industry := "Furniture",
    year := "2024",
    website := "www.aetherchair.com",
    tags := ["Branding", "Motion", "Development"],
    overview := Overview(
      text := "Aether Chair is a stunning example of modern furniture design meeting digital visualization. This project showcases our ability to create photorealistic 3D renders and immersive product experiences.",
      secondText := "By combining traditional design principles with cutting-edge 3D technology, we created a product presentation that elevates the viewing experience and helps customers visualize the product in their space.",
      image := "https://images.unsplash.com/photo-1538688423619-a81d3f23454b?auto=format&fit=crop&w=1600&q=80"),
    scopeOfWork := ScopeOfWork(
      intro := "3D visualization and product design services:",
      items := [
        ScopeItem("3D Modeling & Rendering:", "Created photorealistic 3D models and renders that showcase every detail of the product design."),
        ScopeItem("Interactive Exploration:", "Developed an interactive 3D viewer allowing customers to explore the product from every angle.")
      ],
      image := "https://images.unsplash.com/photo-1524758631624-e2822e304c36?auto=format&fit=crop&w=1400&q=80"),
    relatedProjects := [
      RelatedProject(
        id := "boldstream",
        title := "CoreVision",
        image := "https://images.unsplash.com/photo-1557821552-17105176677c?auto=format&fit=crop&w=1600&q=80",
        tags := ["Marketing", "Web design", "Development"]),
      RelatedProject(
        id := "innovatex",
        title := "InnovateX",
        image := "https://images.unsplash.com/photo-1451187580459-43490279c0fa?auto=format&fit=crop&w=1600&q=80",
        tags := ["Web design", "Motion", "Development"])
    ])

  /** projectsData: the table in declaration order. */
  const projectsData: Table<ProjectDetail> := [("boldstream", BoldstreamProject), ("innovatex", InnovatexProject), ("aether-chair", AetherChairProject)]

  /** One card of the project listing. */
  datatype ProjectListItem = ProjectListItem(id: string, title: string, image: string, tags: seq<string>)

  /** The title a card shows: `cardTitle ?? title`, so only a missing card title falls back. */
  function CardTitle(p: ProjectDetail): string {
    p.cardTitle.GetOr(p.title)
  }

  /** The listing of a sequence of projects, one card per project, in the same order. */
  function ListItems(ps: seq<ProjectDetail>): (items: seq<ProjectListItem>)
    ensures |items| == |ps|
    ensures forall i :: 0 <= i < |ps| ==>
      && items[i].id == ps[i].id
      && items[i].title == CardTitle(ps[i])
      && items[i].image == ps[i].heroImage
      && items[i].tags == ps[i].tags
  {
    if ps == [] then []
    else [ProjectListItem(ps[0].id, CardTitle(ps[0]), ps[0].heroImage, ps[0].tags)] + ListItems(ps[1..])
  }

  /** `projectList`: `Object.values(projectsData)` mapped to cards. */
  function ProjectList(): (items: seq<ProjectListItem>)
    ensures |items| == |projectsData|
    ensures forall i :: 0 <= i < |projectsData| ==>
      && items[i].id == projectsData[i].1.id
      && items[i].title == CardTitle(projectsData[i].1)
      && items[i].image == projectsData[i].1.heroImage
      && items[i].tags == projectsData[i].1.tags
  {
    ListItems(Values(projectsData))
  }

  /** The ids of a listing, in order. */
  function ItemIds(items: seq<ProjectListItem>): (ids: seq<string>)
    ensures |ids| == |items|
    ensures forall i :: 0 <= i < |items| ==> ids[i] == items[i].id
  {
    if items == [] then [] else [items[0].id] + ItemIds(items[1..])
  }

  /** Every key of the table is the `id` of its record. */
  lemma ProjectKeysAreIds()
    ensures forall i :: 0 <= i < |projectsData| ==> projectsData[i].0 == projectsData[i].1.id
  {
  }

  /** No key is declared twice. */
  lemma ProjectKeysDistinct()
    ensures DistinctKeys(projectsData)
  {
  }

  /** The listing has one card per entry, in declaration order, with card titles where given. */
  lemma ProjectListInDeclarationOrder()
    ensures ItemIds(ProjectList()) == ["boldstream", "innovatex", "aether-chair"]
    ensures |ProjectList()| == |projectsData|
    ensures ProjectList()[0].title == "Boldstream" && BoldstreamProject.title == "CoreVision"
  {
  }

  /** Every card id leads back, by lookup, to the record it was made from. */
  lemma ProjectListLookup(i: nat)
    requires i < |ProjectList()|
    ensures Get(projectsData, ProjectList()[i].id) == Some(Values(projectsData)[i])
  {
    ProjectKeysDistinct();
    GetEntry(projectsData, i);
  }

  /** The keys and values of the table, spelled out. */
  lemma ProjectTableContents()
    ensures Keys(projectsData) == ["boldstream", "innovatex", "aether-chair"]
    ensures Values(projectsData) == [BoldstreamProject, InnovatexProject, AetherChairProject]
  {
  }

  /** Every key is a single non-empty path segment, usable as a `:id` route parameter. */
  lemma KeysAreSlugs()
    ensures forall k :: k in Keys(projectsData) ==> k != "" && '/' !in k
  {
    ProjectTableContents();
  }

  /** The cards of the listing, with their ids and tags spelled out. */
  lemma ProjectListContents()
    ensures |ProjectList()| == 3
    ensures ProjectList()[0].id == "boldstream" && ProjectList()[0].tags == ["Marketing", "Web design", "Development"]
    ensures ProjectList()[1].id == "innovatex" && ProjectList()[1].tags == ["Web design", "Motion", "Development"]
    ensures ProjectList()[2].id == "aether-chair" && ProjectList()[2].tags == ["Branding", "Motion", "Development"]
  {
  }

  /** Every related project id is a key of the table. */
  lemma RelatedProjectsExist()
    ensures forall p, r :: p in Values(projectsData) && r in p.relatedProjects ==> r.id in Keys(projectsData)
  {
    RelatedIdsOfCurrentData();
    forall p, r | p in Values(projectsData) && r in p.relatedProjects
      ensures r.id in Keys(projectsData)
    {
      assert r.id in RelatedIds(p);
    }
  }

  /** No project lists itself among its related projects. */
  lemma NoProjectRelatesToItself()
    ensures forall p, r :: p in Values(projectsData) && r in p.relatedProjects ==> r.id != p.id
  {
    RelatedIdsOfCurrentData();
    forall p, r | p in Values(projectsData) && r in p.relatedProjects
      ensures r.id != p.id
    {
      assert r.id in RelatedIds(p);
    }
  }

  /** The ids of a project's related projects, in order. */
  function RelatedIds(p: ProjectDetail): (ids: seq<string>)
    ensures |ids| == |p.relatedProjects|
    ensures forall i :: 0 <= i < |ids| ==> ids[i] == p.relatedProjects[i].id
  {
    seq(|p.relatedProjects|, i requires 0 <= i < |p.relatedProjects| => p.relatedProjects[i].id)
  }

  /** Every record, its id and its related ids in the current data. */
  lemma RelatedIdsOfCurrentData()
    ensures Keys(projectsData) == ["boldstream", "innovatex", "aether-chair"]
    ensures forall p :: p in Values(projectsData) ==>
      || (p.id == "boldstream" && RelatedIds(p) == ["innovatex", "aether-chair"])
      || (p.id == "innovatex" && RelatedIds(p) == ["boldstream", "aether-chair"])
      || (p.id == "aether-chair" && RelatedIds(p) == ["boldstream", "innovatex"])
  {
    ProjectTableContents();
    assert RelatedIds(BoldstreamProject) == ["innovatex", "aether-chair"];
    assert RelatedIds(InnovatexProject) == ["boldstream", "aether-chair"];
    assert RelatedIds(AetherChairProject) == ["boldstream", "innovatex"];
  }

  /** The snapshot a related card would hold if it were taken from the live record. */
  function Snapshot(p: ProjectDetail): RelatedProject {
    RelatedProject(p.id, p.title, p.heroImage, p.tags)
  }

  /** Every related snapshot of `p` agrees with the record it points to. */
  ghost predicate SnapshotsCurrent(p: ProjectDetail) {
    forall r :: r in p.relatedProjects ==> Get(projectsData, r.id).Some? && r == Snapshot(Get(projectsData, r.id).value)
  }

  /** A project whose two related snapshots are taken from the records stored under their ids. */
  lemma SnapshotsOfTwo(p: ProjectDetail, first: ProjectDetail, second: ProjectDetail)
    requires |p.relatedProjects| == 2
    requires p.relatedProjects[0] == Snapshot(first) && Get(projectsData, first.id) == Some(first)
    requires p.relatedProjects[1] == Snapshot(second) && Get(projectsData, second.id) == Some(second)
    ensures SnapshotsCurrent(p)
  {
    forall r | r in p.relatedProjects
      ensures Get(projectsData, r.id).Some? && r == Snapshot(Get(projectsData, r.id).value)
    {
      assert r == p.relatedProjects[0] || r == p.relatedProjects[1];
    }
  }

  /**
   * In the current data every related snapshot (id, title, image and tags)
   * agrees with the record it points to.
   */
  lemma RelatedSnapshotsAreCurrent()
    ensures forall p :: p in Values(projectsData) ==> SnapshotsCurrent(p)
  {
    ProjectLookups();
    SnapshotsOfTwo(BoldstreamProject, InnovatexProject, AetherChairProject);
    SnapshotsOfTwo(InnovatexProject, BoldstreamProject, AetherChairProject);
    SnapshotsOfTwo(AetherChairProject, BoldstreamProject, InnovatexProject);
    ProjectTableContents();
  }

  /** Looking up each declared key yields its record. */
  lemma ProjectLookups()
    ensures Get(projectsData, "boldstream") == Some(BoldstreamProject)
    ensures Get(projectsData, "innovatex") == Some(InnovatexProject)
    ensures Get(projectsData, "aether-chair") == Some(AetherChairProject)
  {
    ProjectKeysDistinct();
    GetEntry(projectsData, 0);
    GetEntry(projectsData, 1);
    GetEntry(projectsData, 2);
  }

  /** Six filter buttons, all different, the first of them meaning "all". */
  lemma CategoriesShape()
    ensures |PROJECT_CATEGORIES| == 6 && PROJECT_CATEGORIES[0] == ALL_PROJECTS
    ensures forall i, j :: 0 <= i < j < |PROJECT_CATEGORIES| ==> PROJECT_CATEGORIES[i] != PROJECT_CATEGORIES[j]
  {
  }
}
