/** The blog section (src/components/BlogSection.tsx): category tabs with post counts, the posts of
    the selected category, the featured block shown under "All Posts", and each card's tag preview. */
module Blog {
  import opened Wrappers
  import Seqs
  import Preview

  /** The closed union `'homelab' | 'systems' | 'tutorial' | 'debugging'`. */
  datatype Category = Homelab | Systems | Tutorial | Debugging

  function CategoryId(c: Category): string {
    match c
    case Homelab => "homelab"
    case Systems => "systems"
    case Tutorial => "tutorial"
    case Debugging => "debugging"
  }

  /** The id of the "All Posts" tab. */
  const All := "all"

  /** A `BlogPost`; `featured` is false where the source leaves it undefined. The excerpt and
      the article body are display text and are not modelled. */
  datatype BlogPost = BlogPost(
    id: string, title: string, date: string, readTime: string,
    tags: seq<string>, category: Category, featured: bool)

  /** The constant list of posts. */
  const BlogPosts: seq<BlogPost> := [
    BlogPost("proxmox-setup", "Building a Proxmox Homelab on Old Hardware", "2024-01-15", "8 min read",
             ["Proxmox", "Homelab", "Virtualization", "Hardware"], Homelab, true),
    BlogPost("docker-optimization", "Optimizing Docker Compose for Production", "2024-01-10", "12 min read",
             ["Docker", "Docker Compose", "DevOps", "Deployment"], Tutorial, false),
    BlogPost("c-memory-debugging", "Debugging C Memory Leaks in Teaching Labs", "2024-01-05", "10 min read",
             ["C Programming", "Memory Management", "Debugging", "Valgrind"], Debugging, false),
    BlogPost("grafana-monitoring", "Setting Up Grafana Monitoring for Homelab", "2023-12-28", "15 min read",
             ["Grafana", "Prometheus", "Monitoring", "Homelab"], Homelab, false),
    BlogPost("systems-programming", "Systems Programming Fundamentals", "2023-12-20", "20 min read",
             ["Systems Programming", "Linux", "Process Management", "IPC"], Systems, false),
    BlogPost("ansible-automation", "Infrastructure Automation with Ansible", "2023-12-15", "14 min read",
             ["Ansible", "Automation", "DevOps", "Configuration Management"], Tutorial, false)
  ]

  /** `posts.filter(p => p.category === c)`, the count behind each category tab. */
  function OfCategory(posts: seq<BlogPost>, c: Category): (r: seq<BlogPost>)
    ensures forall i :: 0 <= i < |r| ==> r[i] in posts && r[i].category == c
    ensures forall i :: 0 <= i < |posts| && posts[i].category == c ==> posts[i] in r
  {
    Seqs.Filter(posts, (p: BlogPost) => p.category == c)
  }

  /** One category tab. */
  datatype CategoryTab = CategoryTab(id: string, name: string, count: nat)

  /** The five tabs: "All Posts" counts every post, each other tab the posts of its category. */
  function Categories(posts: seq<BlogPost>): (tabs: seq<CategoryTab>)
    ensures |tabs| == 5 && tabs[0].id == All && tabs[0].count == |posts|
    ensures tabs[1].id == CategoryId(Homelab) && tabs[1].count == |OfCategory(posts, Homelab)|
    ensures tabs[2].id == CategoryId(Systems) && tabs[2].count == |OfCategory(posts, Systems)|
    ensures tabs[3].id == CategoryId(Tutorial) && tabs[3].count == |OfCategory(posts, Tutorial)|
    ensures tabs[4].id == CategoryId(Debugging) && tabs[4].count == |OfCategory(posts, Debugging)|
  {
    [ CategoryTab(All, "All Posts", |posts|),
      CategoryTab(CategoryId(Homelab), "Homelab", |OfCategory(posts, Homelab)|),
      CategoryTab(CategoryId(Systems), "Systems", |OfCategory(posts, Systems)|),
      CategoryTab(CategoryId(Tutorial), "Tutorials", |OfCategory(posts, Tutorial)|),
      CategoryTab(CategoryId(Debugging), "Debugging", |OfCategory(posts, Debugging)|) ]
  }

  /** `filteredPosts`: every post under "all", otherwise the posts whose category id is the selection. */
  function FilteredPosts(posts: seq<BlogPost>, selected: string): (r: seq<BlogPost>)
    ensures selected == All ==> r == posts
    ensures selected != All ==> forall i :: 0 <= i < |r| ==> r[i] in posts && CategoryId(r[i].category) == selected
    ensures selected != All ==> forall i :: 0 <= i < |posts| && CategoryId(posts[i].category) == selected ==> posts[i] in r
  {
    if selected == All then posts else Seqs.Filter(posts, (p: BlogPost) => CategoryId(p.category) == selected)
  }

  /** The categories are a closed union of four, so their counts add up to the "All Posts" count. */
  lemma {:induction false} CountsSumToAll(posts: seq<BlogPost>)
    ensures Categories(posts)[1].count + Categories(posts)[2].count + Categories(posts)[3].count
            + Categories(posts)[4].count == Categories(posts)[0].count
  {
    if posts != [] {
      CountsSumToAll(posts[1..]);
    }
  }

  /** The number on each tab is the number of posts the grid shows when that tab is selected. */
  lemma TabCountMatchesSelection(posts: seq<BlogPost>, i: nat)
    requires i < 5
    ensures Categories(posts)[i].count == |FilteredPosts(posts, Categories(posts)[i].id)|
  {
    if i > 0 {
      var c := [Homelab, Systems, Tutorial, Debugging][i - 1];
      var selected := CategoryId(c);
      Seqs.FilterCongruent(posts, (p: BlogPost) => p.category == c,
                           (p: BlogPost) => CategoryId(p.category) == selected);
    }
  }

  /** Filtering keeps the original order: it distributes over concatenation. */
  lemma FilteredPostsKeepOrder(a: seq<BlogPost>, b: seq<BlogPost>, selected: string)
    ensures FilteredPosts(a + b, selected) == FilteredPosts(a, selected) + FilteredPosts(b, selected)
  {
    if selected != All {
      Seqs.FilterAppend(a, b, (p: BlogPost) => CategoryId(p.category) == selected);
    }
  }

  /** The featured block: rendered only under "all", listing the featured posts. */
  function FeaturedBlock(posts: seq<BlogPost>, selected: string): (r: seq<BlogPost>)
    ensures selected != All ==> r == []
    ensures selected == All ==> forall i :: 0 <= i < |r| ==> r[i] in posts && r[i].featured
    ensures selected == All ==> forall i :: 0 <= i < |posts| && posts[i].featured ==> posts[i] in r
  {
    if selected == All then Seqs.Filter(posts, (p: BlogPost) => p.featured) else []
  }

  /** The grid: the filtered posts, without the featured ones while "all" is selected. */
  function Grid(posts: seq<BlogPost>, selected: string): (r: seq<BlogPost>)
    ensures forall i :: 0 <= i < |r| ==>
      r[i] in FilteredPosts(posts, selected) && (selected == All ==> !r[i].featured)
    ensures forall i ::
      (0 <= i < |FilteredPosts(posts, selected)| && (selected != All || !FilteredPosts(posts, selected)[i].featured))
      ==> FilteredPosts(posts, selected)[i] in r
  {
    Seqs.Filter(FilteredPosts(posts, selected), (p: BlogPost) => !p.featured || selected != All)
  }

  /** Under "all" the featured block and the grid together show every post exactly once. */
  lemma AllShowsEachPostOnce(posts: seq<BlogPost>)
    ensures multiset(FeaturedBlock(posts, All)) + multiset(Grid(posts, All)) == multiset(posts)
  {
    var selected := All;
    Seqs.FilterSplits(posts, (p: BlogPost) => p.featured, (p: BlogPost) => !p.featured || selected != All);
  }

  /** Under any other selection the grid is exactly the filtered posts, featured ones included. */
  lemma GridOutsideAll(posts: seq<BlogPost>, selected: string)
    requires selected != All
    ensures Grid(posts, selected) == FilteredPosts(posts, selected)
  {
    Seqs.FilterKeepsAll(FilteredPosts(posts, selected), (p: BlogPost) => !p.featured || selected != All);
  }

  /** A card's tags: the first three, then `+{n - 3} more` when there are more than three. */
  function TagPreview(post: BlogPost): (t: Preview.Truncated<string>)
    ensures t.shown == post.tags[..if |post.tags| <= 3 then |post.tags| else 3]
    ensures t.badge.Some? <==> |post.tags| > 3
    ensures t.badge.Some? ==> t.badge.value == |post.tags| - 3
  {
    Preview.Truncate(post.tags)
  }

  /** `getCategoryColor`: four different classes for the four categories, grey otherwise. */
  function CategoryColor(category: string): (r: string)
    ensures r == "bg-gray-500" <==> category !in {"homelab", "systems", "tutorial", "debugging"}
  {
    match category
    case "homelab" => "bg-primary-500"
    case "systems" => "bg-accent-500"
    case "tutorial" => "bg-purple-500"
    case "debugging" => "bg-orange-500"
    case _ => "bg-gray-500"
  }

  /** Different categories get different badge colours. */
  lemma CategoryColorsDistinct(a: Category, b: Category)
    ensures CategoryColor(CategoryId(a)) == CategoryColor(CategoryId(b)) <==> a == b
  {
  }

  /** On the site's own posts: 6 in all, 2 homelab, 1 systems, 2 tutorials, 1 debugging. */
  lemma SitePostCounts()
    ensures Categories(BlogPosts)[0].count == 6
    ensures Categories(BlogPosts)[1].count == 2 && Categories(BlogPosts)[2].count == 1
    ensures Categories(BlogPosts)[3].count == 2 && Categories(BlogPosts)[4].count == 1
  {
    var p := BlogPosts;
    assert p[1..][1..][1..][1..][1..][1..] == [];
  }

  /** One of the site's posts is featured, and every card shows three tags and a "+1 more" badge. */
  lemma SitePostPreviews()
    ensures FeaturedBlock(BlogPosts, All) == [BlogPosts[0]]
    ensures forall i :: 0 <= i < |BlogPosts| ==> TagPreview(BlogPosts[i]).badge == Some(1)
  {
    var p := BlogPosts;
    assert p[1..][1..][1..][1..][1..][1..] == [];
  }
}
