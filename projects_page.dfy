/**
 * The project index page: a row of category buttons, one of them active,
 * and the project cards that the active category lets through.
 */
module ProjectsPage {
  import opened Optional
  import opened KeyedTable
  import opened ProjectsData
  import opened PageCommon
  import ProjectDetailPage

  /** The type of `activeCategory`: one of the declared categories. */
  type Category = c: string | c in PROJECT_CATEGORIES witness ALL_PROJECTS

  /** `a` is `b` with some elements left out, the rest in their original order. */
  ghost predicate IsSubsequence<T>(a: seq<T>, b: seq<T>)
    decreases |b|
  {
    if a == [] then true
    else if b == [] then false
    else (a[0] == b[0] && IsSubsequence(a[1..], b[1..])) || IsSubsequence(a, b[1..])
  }

  /** `items.filter((project) => project.tags.includes(tag))`. */
  function FilterByTag(items: seq<ProjectListItem>, tag: string): (r: seq<ProjectListItem>)
    ensures |r| <= |items|
    ensures forall x :: x in r <==> x in items && tag in x.tags
    ensures IsSubsequence(r, items)
  {
    if items == [] then []
    else
      var rest := FilterByTag(items[1..], tag);
      assert items == [items[0]] + items[1..];
      if tag in items[0].tags then [items[0]] + rest else rest
  }

  /** `filteredProjects`: the whole listing for "All projects", otherwise the cards tagged with the category. */
  function FilteredProjects(active: Category): (r: seq<ProjectListItem>)
    ensures active == ALL_PROJECTS ==> r == ProjectList()
    ensures active != ALL_PROJECTS ==> forall x :: x in r <==> x in ProjectList() && active in x.tags
    ensures IsSubsequence(r, ProjectList()) && |r| <= |ProjectList()|
  {
    if active == ALL_PROJECTS then
      SubsequenceOfItself(ProjectList());
      ProjectList()
    else FilterByTag(ProjectList(), active)
  }

  /** Every sequence is a subsequence of itself, so the identity filter keeps the order. */
  lemma {:induction false} SubsequenceOfItself<T>(s: seq<T>)
    ensures IsSubsequence(s, s)
    decreases |s|
  {
    if s != [] {
      SubsequenceOfItself(s[1..]);
    }
  }

  /** The filter decides about the first card, then filters the rest. */
  lemma FilterFirst(items: seq<ProjectListItem>, tag: string)
    requires items != []
    ensures FilterByTag(items, tag) == (if tag in items[0].tags then [items[0]] else []) + FilterByTag(items[1..], tag)
  {
  }

  /** Filtering a three-card listing, one card at a time. */
  lemma FilterOfThree(items: seq<ProjectListItem>, tag: string)
    requires |items| == 3
    ensures FilterByTag(items, tag)
         == (if tag in items[0].tags then [items[0]] else [])
          + (if tag in items[1].tags then [items[1]] else [])
          + (if tag in items[2].tags then [items[2]] else [])
  {
    var second := items[1..];
    var third := items[2..];
    assert second[0] == items[1] && second[1..] == third;
    assert third[0] == items[2] && third[1..] == [];
    FilterFirst(items, tag);
    FilterFirst(second, tag);
    FilterFirst(third, tag);
  }

  /**
   * The filter keeps every tagged card as often as it occurs and drops every
   * other card, so together with the order it is exactly `filter`.
   */
  lemma {:induction false} FilterKeepsMultiplicity(items: seq<ProjectListItem>, tag: string)
    ensures forall x :: multiset(FilterByTag(items, tag))[x] == if tag in x.tags then multiset(items)[x] else 0
  {
    if items != [] {
      var head := if tag in items[0].tags then [items[0]] else [];
      var rest := items[1..];
      FilterFirst(items, tag);
      FilterKeepsMultiplicity(rest, tag);
      assert multiset(FilterByTag(items, tag)) == multiset(head) + multiset(FilterByTag(rest, tag));
      assert items == [items[0]] + rest;
      assert multiset(items) == multiset([items[0]]) + multiset(rest);
      forall x
        ensures multiset(FilterByTag(items, tag))[x] == if tag in x.tags then multiset(items)[x] else 0
      {
      }
    }
  }

  /** The cards of a three-card listing the filter keeps, by id. */
  lemma FilteredIdsOfThree(items: seq<ProjectListItem>, tag: string)
    requires |items| == 3
    ensures ItemIds(FilterByTag(items, tag))
         == (if tag in items[0].tags then [items[0].id] else [])
          + (if tag in items[1].tags then [items[1].id] else [])
          + (if tag in items[2].tags then [items[2].id] else [])
  {
    FilterOfThree(items, tag);
    var h0 := if tag in items[0].tags then [items[0]] else [];
    var h1 := if tag in items[1].tags then [items[1]] else [];
    var h2 := if tag in items[2].tags then [items[2]] else [];
    assert FilterByTag(items, tag) == h0 + h1 + h2;
    ItemIdsAppend(h0 + h1, h2);
    ItemIdsAppend(h0, h1);
    assert ItemIds(h0) == (if tag in items[0].tags then [items[0].id] else []);
    assert ItemIds(h1) == (if tag in items[1].tags then [items[1].id] else []);
    assert ItemIds(h2) == (if tag in items[2].tags then [items[2].id] else []);
  }

  /** The ids of two listings one after the other. */
  lemma ItemIdsAppend(a: seq<ProjectListItem>, b: seq<ProjectListItem>)
    ensures ItemIds(a + b) == ItemIds(a) + ItemIds(b)
  {
    assert |ItemIds(a + b)| == |ItemIds(a) + ItemIds(b)|;
    forall i | 0 <= i < |a + b| ensures ItemIds(a + b)[i] == (ItemIds(a) + ItemIds(b))[i] {
      if i < |a| {
        assert (a + b)[i] == a[i];
      } else {
        assert (a + b)[i] == b[i - |a|];
      }
    }
  }

  /** On the current data, the ids each category shows: a card is shown when the category is "All projects" or one of its tags. */
  lemma FilteredIdsOnCurrentData(active: Category)
    ensures ItemIds(FilteredProjects(active)) == ShownIds(active)
  {
    ProjectListContents();
    if active == ALL_PROJECTS {
      ProjectListInDeclarationOrder();
    } else {
      FilteredIdsOfThree(ProjectList(), active);
    }
  }

  /** The ids of the cards `active` lets through, with the tags of the current data written out. */
  function ShownIds(active: Category): seq<string> {
    (if active == ALL_PROJECTS || active in ["Marketing", "Web design", "Development"] then ["boldstream"] else [])
    + (if active == ALL_PROJECTS || active in ["Web design", "Motion", "Development"] then ["innovatex"] else [])
    + (if active == ALL_PROJECTS || active in ["Branding", "Motion", "Development"] then ["aether-chair"] else [])
  }

  /** "Branding" shows only the Aether Chair card. */
  lemma FilterBranding()
    ensures ItemIds(FilteredProjects("Branding")) == ["aether-chair"]
  {
    FilteredIdsOnCurrentData("Branding");
    ShownForBrandingAndMotion();
  }

  /** "Motion" shows InnovateX and Aether Chair, in that order. */
  lemma FilterMotion()
    ensures ItemIds(FilteredProjects("Motion")) == ["innovatex", "aether-chair"]
  {
    FilteredIdsOnCurrentData("Motion");
    ShownForBrandingAndMotion();
  }

  /** The reference ids of "Branding" and "Motion", evaluated. */
  lemma ShownForBrandingAndMotion()
    ensures ShownIds("Branding") == ["aether-chair"]
    ensures ShownIds("Motion") == ["innovatex", "aether-chair"]
  {
    assert ShownIds("Motion") == [] + ["innovatex"] + ["aether-chair"];
  }

  /** Whether each category button is rendered as active, in button order. */
  function ActiveFlags(active: Category): (flags: seq<bool>)
    ensures |flags| == |PROJECT_CATEGORIES|
    ensures forall i :: 0 <= i < |flags| ==> (flags[i] <==> PROJECT_CATEGORIES[i] == active)
  {
    seq(|PROJECT_CATEGORIES|, i requires 0 <= i < |PROJECT_CATEGORIES| => PROJECT_CATEGORIES[i] == active)
  }

  /** Exactly one button is active, whatever the active category. */
  lemma ExactlyOneActive(active: Category)
    ensures exists i :: 0 <= i < |PROJECT_CATEGORIES| && ActiveFlags(active)[i]
    ensures forall i, j ::
      0 <= i < |PROJECT_CATEGORIES| && 0 <= j < |PROJECT_CATEGORIES| && ActiveFlags(active)[i] && ActiveFlags(active)[j]
      ==> i == j
  {
    CategoriesShape();
    var i :| 0 <= i < |PROJECT_CATEGORIES| && PROJECT_CATEGORIES[i] == active;
    assert ActiveFlags(active)[i];
  }

  /** One rendered card: a link to the project's page around its image and title. */
  datatype ProjectCard = ProjectCard(href: string, media: CardMedia, title: string, tags: seq<string>)

  /** `filteredProjects.map(...)`: one card per item, in order. */
  function Cards(items: seq<ProjectListItem>): (cards: seq<ProjectCard>)
    ensures |cards| == |items|
    ensures forall i :: 0 <= i < |items| ==>
      && cards[i].href == ProjectLink(items[i].id)
      && cards[i].media == Media(items[i].image, items[i].title)
      && cards[i].title == items[i].title
      && cards[i].tags == items[i].tags
  {
    if items == [] then []
    else
      var card := ProjectCard(ProjectLink(items[0].id), Media(items[0].image, items[0].title), items[0].title, items[0].tags);
      [card] + Cards(items[1..])
  }

  /** Every card on the page, for any active category, opens a project page rather than "Project Not Found". */
  lemma CardLinksResolve(active: Category, i: nat)
    requires i < |Cards(FilteredProjects(active))|
    ensures ProjectDetailPage.Render(RouteParam(PROJECTS_PREFIX, Cards(FilteredProjects(active))[i].href)).Found?
  {
    var item := FilteredProjects(active)[i];
    assert item in ProjectList();
    var k :| 0 <= k < |ProjectList()| && ProjectList()[k] == item;
    ProjectListLookup(k);
    KeysAreSlugs();
    RouteParamOfLink(PROJECTS_PREFIX, item.id);
  }

  /** The page state: the active category, changed only by clicking a button. */
  class ProjectsPageState {
    var activeCategory: Category

    /** The first render: `useState("All projects")`. */
    constructor ()
      ensures activeCategory == ALL_PROJECTS
    {
      activeCategory := ALL_PROJECTS;
    }

    /** `onClick={() => setActiveCategory(category)}`. */
    method Click(category: Category)
      modifies this
      ensures activeCategory == category
    {
      activeCategory := category;
    }

    /** The list the page renders in its current state. */
    function Shown(): (r: seq<ProjectListItem>)
      reads this
      ensures r == FilteredProjects(activeCategory)
      ensures IsSubsequence(r, ProjectList())
    {
      FilteredProjects(activeCategory)
    }
  }

  /** A fresh page shows every project; clicking "Branding" narrows it to the Branding projects. */
  method ClickThrough()
  {
    var page := new ProjectsPageState();
    var first := page.Shown();
    assert first == ProjectList();
    page.Click("Branding");
    var second := page.Shown();
    assert second == FilteredProjects("Branding");
    FilterBranding();
    assert ItemIds(second) == ["aether-chair"];
  }
}
