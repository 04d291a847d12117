/**
 * The blog table: one constant record per post, keyed by the id used in
 * `/blog/:id` routes, and the listing derived from it.
 */
module BlogData {
  import opened Optional
  import opened KeyedTable

  datatype Author = Author(name: string, role: string, avatar: string)

  /** One section of a post body; the heading and the image are optional. */
  datatype Section = Section(heading: Option<string>, paragraphs: seq<string>, image: Option<string>)

  datatype Content = Content(intro: string, sections: seq<Section>)

  /** A denormalised snapshot of another post, shown as a related card. */
  datatype RelatedPost = RelatedPost(id: string, title: string, image: string, date: string, readMin: int)

  datatype BlogPost = BlogPost(
    id: string,
    title: string,
    date: string,
    readMin: int,
    image: string,
    category: string,
    author: Author,
    content: Content,
    relatedPosts: seq<RelatedPost>)

  /** The `design-principles` entry of the blog table. */
  const DesignPrinciplesPost: BlogPost := BlogPost(
    id := "design-principles",
    title := "5 design principles that elevate your projects",
    date := "June 18, 2025",
    readMin := 10,
    image := "https://images.unsplash.com/photo-1518770660439-4636190af475?auto=format&fit=crop&w=1400&q=80",
    category := "Design",
    author := Author(name := "Martin Robart", role := "Digital Designer", avatar := "https://static.step1.dev/4cfd7d4f5bcb49913cb3b89b805a76f9"),
    content := Content(
      intro := "Design principles are the foundation of creating meaningful and effective digital experiences. These five core principles have guided my work for over a decade, helping transform complex ideas into elegant solutions.",
      sections := [
        Section(
          heading := Some("1. Simplicity is Sophistication"),
          paragraphs := [
            "The best designs often appear effortless. By removing unnecessary elements and focusing on what truly matters, we create interfaces that users can navigate intuitively. Every element should serve a purpose.",
            "Simplicity doesn't mean boring or minimal for the sake of it. It means thoughtful reduction—keeping only what adds value to the user experience while maintaining visual interest through typography, spacing, and subtle details."
          ],
          image := Some("https://images.unsplash.com/photo-1507238691740-187a5b1d37b8?auto=format&fit=crop&w=1400&q=80")),
        Section(
          heading := Some("2. Hierarchy Creates Clarity"),
          paragraphs := [
            "Visual hierarchy guides users through content in a natural flow. Through size, weight, color, and positioning, we can direct attention and make information easily scannable.",
            "A strong typographic scale combined with intentional spacing creates rhythm and makes even dense content feel approachable. Users should never feel lost or overwhelmed."
          ],
          image := None),
        Section(
          heading := Some("3. Consistency Builds Trust"),
          paragraphs := [
            "Consistent patterns across an interface reduce cognitive load. When buttons, inputs, and interactions behave predictably, users can focus on their goals rather than learning the interface.",
            "This extends beyond visual consistency to interaction patterns, messaging tone, and even animation timing. A cohesive system feels polished and professional."
          ],
          image := Some("https://images.unsplash.com/photo-1561070791-2526d30994b5?auto=format&fit=crop&w=1400&q=80")),
        Section(
          heading := Some("4. White Space is a Design Element"),
          paragraphs := [
            "Empty space isn't wasted space—it's an active design element that provides breathing room and emphasis. Proper spacing can make the difference between a cramped interface and an elegant one.",
            "Strategic use of white space draws attention to important elements, improves readability, and creates a sense of luxury and sophistication."
          ],
          image := None),
        Section(
          heading := Some("5. Design for Real People"),
          paragraphs := [
            "Beautiful design means nothing if it doesn't work for actual users. Accessibility, performance, and usability should be considered from day one, not added as an afterthought.",
            "Testing with real users, considering edge cases, and designing for different contexts ensures your work has lasting impact. Great design solves real problems elegantly."
          ],
          image := None)
      ]),
    relatedPosts := [
      RelatedPost(
        id := "challenging-project",
        title := "Lessons learned from my most challenging project",
        image := "https://images.unsplash.com/photo-1500534314209-a25ddb2bd429?auto=format&fit=crop&w=1400&q=80",
        date := "June 18, 2025",
        readMin := 2),
      RelatedPost(
        id := "storytelling",
        title := "How storytelling enhances your design and branding",
        image := "https://images.unsplash.com/photo-1615529182904-14819c35db37?auto=format&fit=crop&w=1400&q=80",
        date := "June 18, 2025",
        readMin := 8)
    ])

  /** The `challenging-project` entry of the blog table. */
  const ChallengingProjectPost: BlogPost := BlogPost(
    id := "challenging-project",
    title := "Lessons learned from my most challenging project",
    date := "June 18, 2025",
    readMin := 2,
    image := "https://images.unsplash.com/photo-1500534314209-a25ddb2bd429?auto=format&fit=crop&w=1400&q=80",
    category := "Experience",
    author := Author(name := "Martin Robart", role := "Digital Designer", avatar := "https://static.step1.dev/4cfd7d4f5bcb49913cb3b89b805a76f9"),
    content := Content(
      intro := "Every designer faces projects that push them beyond their comfort zone. This is the story of one such project and the invaluable lessons it taught me about resilience, communication, and growth.",
      sections := [
        Section(
          heading := Some("The Challenge"),
          paragraphs := [
            "The project seemed straightforward at first: redesign a complex enterprise platform used by thousands of employees daily. However, as we dove deeper, we uncovered layers of technical debt, conflicting stakeholder requirements, and tight deadlines.",
            "What made it particularly challenging was balancing the needs of power users who relied on advanced features with the desire to make the platform more accessible to new employees."
          ],
          image := None),
        Section(
          heading := Some("What I Learned"),
          paragraphs := [
            "Communication is everything. Regular check-ins with stakeholders, transparent discussion of constraints, and managing expectations early saved us from major conflicts later.",
            "Sometimes the best solution isn't the most elegant one—it's the one that actually ships. Knowing when to compromise on perfection for the sake of progress is a crucial skill.",
            "User research cannot be skipped. Our assumptions were wrong in several areas, and only by testing with real users did we discover the path forward."
          ],
          image := Some("https://images.unsplash.com/photo-1553877522-43269d4ea984?auto=format&fit=crop&w=1400&q=80"))
      ]),
    relatedPosts := [
      RelatedPost(
        id := "design-principles",
        title := "5 design principles that elevate your projects",
        image := "https://images.unsplash.com/photo-1518770660439-4636190af475?auto=format&fit=crop&w=1400&q=80",
        date := "June 18, 2025",
        readMin := 10),
      RelatedPost(
        id := "essential-tools",
        title := "Essential tools every creative professional should use",
        image := "https://images.unsplash.com/photo-1527443154391-507e9dc6c5cc?auto=format&fit=crop&w=1400&q=80",
        date := "June 18, 2025",
        readMin := 5)
    ])

  /** The `storytelling` entry of the blog table. */
  const StorytellingPost: BlogPost := BlogPost(
    id := "storytelling",
    title := "How storytelling enhances your design and branding",
    date := "June 18, 2025",
    readMin := 8,
    image := "https://images.unsplash.com/photo-1615529182904-14819c35db37?auto=format&fit=crop&w=1400&q=80",
    category := "Branding",
    author := Author(name := "Martin Robart", role := "Digital Designer", avatar := "https://static.step1.dev/4cfd7d4f5bcb49913cb3b89b805a76f9"),
    content := Content(
      intro := "Every brand has a story to tell. The most successful brands don't just sell products or services—they create narratives that resonate with their audience on an emotional level.",
      sections := [
        Section(
          heading := Some("Why Story Matters"),
          paragraphs := [
            "In a crowded marketplace, facts and features aren't enough to stand out. Stories create emotional connections, making your brand memorable and relatable. People remember how you made them feel long after they've forgotten your specifications.",
            "A compelling brand narrative gives customers a reason to choose you over competitors. It transforms transactions into relationships and customers into advocates."
          ],
          image := Some("https://images.unsplash.com/photo-1557804506-669a67965ba0?auto=format&fit=crop&w=1400&q=80")),
        Section(
          heading := Some("Applying Storytelling to Design"),
          paragraphs := [
            "Visual storytelling uses imagery, typography, and layout to guide users through a narrative journey. Each screen or section should feel like a chapter that flows naturally into the next.",
            "Consider your user's journey: What do they need to know? How do they feel? What action should they take next? Design each touchpoint to advance this story.",
            "Even micro-interactions can tell a story. A loading animation, a hover effect, or a transition can communicate your brand's personality and values."
          ],
          image := None),
        Section(
          heading := Some("Making It Authentic"),
          paragraphs := [
            "The best brand stories are authentic. Don't fabricate a narrative that doesn't align with your actual values and mission. Users can sense inauthenticity, and it erodes trust.",
            "Start with your \"why\"—the genuine reason your brand exists beyond making money. Build your visual identity and messaging around this core truth."
          ],
          image := None)
      ]),
    relatedPosts := [
      RelatedPost(
        id := "design-principles",
        title := "5 design principles that elevate your projects",
        image := "https://images.unsplash.com/photo-1518770660439-4636190af475?auto=format&fit=crop&w=1400&q=80",
        date := "June 18, 2025",
        readMin := 10),
      RelatedPost(
        id := "challenging-project",
        title := "Lessons learned from my most challenging project",
        image := "https://images.unsplash.com/photo-1500534314209-a25ddb2bd429?auto=format&fit=crop&w=1400&q=80",
        date := "June 18, 2025",
        readMin := 2)
    ])

  /** The `essential-tools` entry of the blog table. */
  const EssentialToolsPost: BlogPost := BlogPost(
    id := "essential-tools",
    title := "Essential tools every creative professional should use",
    date := "June 18, 2025",
    readMin := 5,
    image := "https://images.unsplash.com/photo-1527443154391-507e9dc6c5cc?auto=format&fit=crop&w=1400&q=80",
    category := "Tools",
    author := Author(name := "Martin Robart", role := "Digital Designer", avatar := "https://static.step1.dev/4cfd7d4f5bcb49913cb3b89b805a76f9"),
    content := Content(
      intro := "The right tools can dramatically improve your creative workflow. Here are the essential tools I use daily to design, develop, and deliver exceptional digital experiences.",
      sections := [
        Section(
          heading := Some("Design Tools"),
          paragraphs := [
            "Figma has become my primary design tool for its collaborative features and robust prototyping capabilities. The ability to work with developers and stakeholders in real-time has transformed our workflow.",
            "For more complex interactions and animations, I turn to Principle or ProtoPie. These tools bridge the gap between static designs and functional prototypes."
          ],
          image := None),
        Section(
          heading := Some("Development Tools"),
          paragraphs := [
            "VS Code remains the gold standard for code editing. With the right extensions, it becomes a powerful environment for everything from React development to CSS refinement.",
            "For version control and collaboration, GitHub is indispensable. Beyond just code storage, GitHub Actions have streamlined our deployment pipeline."
          ],
          image := Some("https://images.unsplash.com/photo-1461749280684-dccba630e2f6?auto=format&fit=crop&w=1400&q=80")),
        Section(
          heading := Some("Productivity & Organization"),
          paragraphs := [
            "Notion serves as my second brain, organizing everything from project documentation to personal notes. Its flexibility allows me to create custom workflows that adapt to different project needs.",
            "Linear has revolutionized how I manage tasks and issues. Its keyboard-first design and clean interface make project management feel effortless rather than burdensome."
          ],
          image := None),
        Section(
          heading := Some("Communication"),
          paragraphs := [
            "Clear communication is as important as the work itself. Loom for async video updates, Slack for quick coordination, and Calendly for scheduling have all reduced friction in client relationships.",
            "The key is choosing tools that enhance rather than complicate your workflow. Start with the basics and add tools only when they solve a real problem."
          ],
          image := None)
      ]),
    relatedPosts := [
      RelatedPost(
        id := "design-principles",
        title := "5 design principles that elevate your projects",
        image := "https://images.unsplash.com/photo-1518770660439-4636190af475?auto=format&fit=crop&w=1400&q=80",
        date := "June 18, 2025",
        readMin := 10),
      RelatedPost(
        id := "storytelling",
        title := "How storytelling enhances your design and branding",
        image := "https://images.unsplash.com/photo-1615529182904-14819c35db37?auto=format&fit=crop&w=1400&q=80",
        date := "June 18, 2025",
        readMin := 8)
    ])

  /** blogData: the table in declaration order. */
  const blogData: Table<BlogPost> := [("design-principles", DesignPrinciplesPost), ("challenging-project", ChallengingProjectPost), ("storytelling", StorytellingPost), ("essential-tools", EssentialToolsPost)]

  /** `blogList`: `Object.values(blogData)`. */
  function BlogList(): (posts: seq<BlogPost>)
    ensures |posts| == |blogData|
    ensures forall i :: 0 <= i < |blogData| ==> posts[i] == blogData[i].1
  {
    Values(blogData)
  }

  /** Every key of the table is the `id` of its post. */
  lemma BlogKeysAreIds()
    ensures forall i :: 0 <= i < |blogData| ==> blogData[i].0 == blogData[i].1.id
  {
  }

  /** No key is declared twice. */
  lemma BlogKeysDistinct()
    ensures DistinctKeys(blogData)
  {
  }

  /** The keys and the listing, spelled out in declaration order. */
  lemma BlogTableContents()
    ensures Keys(blogData) == ["design-principles", "challenging-project", "storytelling", "essential-tools"]
    ensures BlogList() == [DesignPrinciplesPost, ChallengingProjectPost, StorytellingPost, EssentialToolsPost]
  {
  }

  /** Every key is one URL path segment: non-empty and without a slash. */
  lemma BlogKeysAreSlugs()
    ensures forall k :: k in Keys(blogData) ==> k != "" && '/' !in k
  {
    BlogTableContents();
  }

  /** Looking up each declared key yields its post. */
  lemma BlogLookups()
    ensures Get(blogData, "design-principles") == Some(DesignPrinciplesPost)
    ensures Get(blogData, "challenging-project") == Some(ChallengingProjectPost)
    ensures Get(blogData, "storytelling") == Some(StorytellingPost)
    ensures Get(blogData, "essential-tools") == Some(EssentialToolsPost)
  {
    BlogKeysDistinct();
    GetEntry(blogData, 0);
    GetEntry(blogData, 1);
    GetEntry(blogData, 2);
    GetEntry(blogData, 3);
  }

  /** Every post of the listing is found again under its own id. */
  lemma BlogListLookup(post: BlogPost)
    requires post in BlogList()
    ensures Get(blogData, post.id) == Some(post)
  {
    var i :| 0 <= i < |blogData| && BlogList()[i] == post;
    BlogKeysDistinct();
    GetEntry(blogData, i);
  }

  /** Every related post id is a key of the table. */
  lemma RelatedPostsExist()
    ensures forall p, r :: p in BlogList() && r in p.relatedPosts ==> r.id in Keys(blogData)
  {
    BlogTableContents();
  }

  /** No post relates to itself, and every post has exactly two related posts. */
  lemma RelatedPostsShape()
    ensures forall p :: p in BlogList() ==> |p.relatedPosts| == 2
    ensures forall p, r :: p in BlogList() && r in p.relatedPosts ==> r.id != p.id
  {
    BlogTableContents();
  }

  /** The snapshot a related card would hold if it were taken from the live post. */
  function Snapshot(p: BlogPost): RelatedPost {
    RelatedPost(p.id, p.title, p.image, p.date, p.readMin)
  }

  /** Every related snapshot of `p` agrees with the post it points to. */
  ghost predicate SnapshotsCurrent(p: BlogPost) {
    forall r :: r in p.relatedPosts ==> Get(blogData, r.id).Some? && r == Snapshot(Get(blogData, r.id).value)
  }

  /** A post whose two related snapshots are taken from the posts stored under their ids. */
  lemma SnapshotsOfTwo(p: BlogPost, first: BlogPost, second: BlogPost)
    requires |p.relatedPosts| == 2
    requires p.relatedPosts[0] == Snapshot(first) && Get(blogData, first.id) == Some(first)
    requires p.relatedPosts[1] == Snapshot(second) && Get(blogData, second.id) == Some(second)
    ensures SnapshotsCurrent(p)
  {
    forall r | r in p.relatedPosts
      ensures Get(blogData, r.id).Some? && r == Snapshot(Get(blogData, r.id).value)
    {
      assert r == p.relatedPosts[0] || r == p.relatedPosts[1];
    }
  }

  /**
   * In the current data every related snapshot (id, title, image, date and
   * reading time) agrees with the post it points to.
   */
  lemma RelatedSnapshotsAreCurrent()
    ensures forall i :: 0 <= i < |blogData| ==> SnapshotsCurrent(blogData[i].1)
  {
    DesignPrinciplesSnapshotsCurrent();
    ChallengingProjectSnapshotsCurrent();
    StorytellingSnapshotsCurrent();
    EssentialToolsSnapshotsCurrent();
    forall i | 0 <= i < |blogData|
      ensures SnapshotsCurrent(blogData[i].1)
    {
    }
  }

  /** The related snapshots of `design-principles`. */
  lemma DesignPrinciplesSnapshotsCurrent()
    ensures SnapshotsCurrent(DesignPrinciplesPost)
  {
    BlogLookups();
    SnapshotsOfTwo(DesignPrinciplesPost, ChallengingProjectPost, StorytellingPost);
  }

  /** The related snapshots of `challenging-project`. */
  lemma ChallengingProjectSnapshotsCurrent()
    ensures SnapshotsCurrent(ChallengingProjectPost)
  {
    BlogLookups();
    SnapshotsOfTwo(ChallengingProjectPost, DesignPrinciplesPost, EssentialToolsPost);
  }

  /** The related snapshots of `storytelling`. */
  lemma StorytellingSnapshotsCurrent()
    ensures SnapshotsCurrent(StorytellingPost)
  {
    BlogLookups();
    SnapshotsOfTwo(StorytellingPost, DesignPrinciplesPost, ChallengingProjectPost);
  }

  /** The related snapshots of `essential-tools`. */
  lemma EssentialToolsSnapshotsCurrent()
    ensures SnapshotsCurrent(EssentialToolsPost)
  {
    BlogLookups();
    SnapshotsOfTwo(EssentialToolsPost, DesignPrinciplesPost, StorytellingPost);
  }

  /** The `design-principles` post: ten minutes, Design, and `challenging-project` (two minutes) first among its two related posts. */
  lemma DesignPrinciplesScenario()
    ensures Get(blogData, "design-principles").Some?
    ensures var p := Get(blogData, "design-principles").value;
      && p.readMin == 10 && p.category == "Design"
      && |p.relatedPosts| == 2 && p.relatedPosts[0].id == "challenging-project"
      && p.relatedPosts[0].readMin == 2
      && Get(blogData, "challenging-project") == Some(ChallengingProjectPost) && ChallengingProjectPost.readMin == 2
  {
    BlogLookups();
  }
}
