/** The project cards (src/components/ProjectsSection.tsx): each card shows a category badge, the
    first three technologies, a Code link and an optional Demo link; one card at a time can be
    expanded to show its scripted terminal and its full tech stack. */
module Projects {
  import opened Wrappers
  import Seqs
  import Preview
  import Expansion
  import Terminal

  /** The closed union `'homelab' | 'systems' | 'web' | 'coursework'`. */
  datatype Category = Homelab | Systems | Web | Coursework

  function CategoryId(c: Category): string {
    match c
    case Homelab => "homelab"
    case Systems => "systems"
    case Web => "web"
    case Coursework => "coursework"
  }

  /** A `Project`. The optional `liveUrl` and `terminalCommands` are `Option`s; the description
      and the image are display text and are not modelled. */
  datatype Project = Project(
    id: string, title: string, githubUrl: string, liveUrl: Option<string>,
    techStack: seq<string>, category: Category, terminalCommands: Option<seq<string>>)

  /** The constant list of projects (the commented-out entries of the source are not part of it). */
  const AllProjects: seq<Project> := [
    Project("homelab", "Proxmox Homelab Infrastructure", "https://github.com/your-username/homelab", None,
            ["Proxmox", "Docker", "Grafana", "Prometheus", "Discord Webhooks", "Ansible"], Homelab,
            Some(["ssh root@proxmox.local", "pvesm status", "docker ps", "systemctl status grafana-server"])),
    Project("snipe-it-automation", "Snipe-IT License Import Script",
            "https://github.com/Bbocks/Snipe-IT-License-Import-Script", None,
            ["Python", "REST API", "Pandas", "CSV/Excel", "Snipe-IT", "Automation"], Systems,
            Some(["pip install pandas requests python-dotenv openpyxl", "python get_seat_id.py",
                  "python license_import.py"])),
    Project("construct-a-flow-ai", "Construct-a-Flow AI Web", "https://construct-a-flow.com", None,
            ["React", "TypeScript", "Web Development", "Workflow Automation"], Web,
            Some(["npm install", "npm run dev", "npm run build"]))
  ]

  /** The React keys of the cards. */
  function Ids(projects: seq<Project>): (r: seq<string>)
    ensures |r| == |projects| && forall i :: 0 <= i < |r| ==> r[i] == projects[i].id
  {
    Seqs.Map(projects, (p: Project) => p.id)
  }

  /** `getCategoryColor`: four different classes for the four categories, grey otherwise. */
  function CategoryColor(category: string): (r: string)
    ensures r == "bg-gray-500" <==> category !in {"homelab", "systems", "web", "coursework"}
  {
    match category
    case "homelab" => "bg-primary-500"
    case "systems" => "bg-accent-500"
    case "web" => "bg-purple-500"
    case "coursework" => "bg-orange-500"
    case _ => "bg-gray-500"
  }

  /** Different categories get different badge colours. */
  lemma CategoryColorsDistinct(a: Category, b: Category)
    ensures CategoryColor(CategoryId(a)) == CategoryColor(CategoryId(b)) <==> a == b
  {
  }

  /** `project.liveUrl && ...`: an absent and an empty URL both hide the Demo link. */
  predicate ShowsDemo(p: Project)
    ensures p.liveUrl.None? ==> !ShowsDemo(p)
    ensures p.liveUrl == Some("") ==> !ShowsDemo(p)
    ensures p.liveUrl.Some? && p.liveUrl.value != "" ==> ShowsDemo(p)
  {
    p.liveUrl.Some? && p.liveUrl.value != ""
  }

  /** What the expanded part of a card renders: the terminal's command list when the project
      has one (an empty list is truthy and still renders a terminal), and the full tech stack. */
  datatype ExpandedView = ExpandedView(terminal: Option<seq<string>>, fullTechStack: seq<string>)

  /** What a card renders given the expanded id. */
  datatype CardView = CardView(
    badge: string, techPreview: Preview.Truncated<string>, demo: bool,
    chevronUp: bool, expandedContent: Option<ExpandedView>)

  function Card(p: Project, expanded: Option<string>): (v: CardView)
    ensures v.chevronUp <==> Expansion.IsExpanded(expanded, p.id)
    ensures v.expandedContent.Some? <==> Expansion.IsExpanded(expanded, p.id)
    ensures v.expandedContent.Some? ==>
      v.expandedContent.value.terminal == p.terminalCommands && v.expandedContent.value.fullTechStack == p.techStack
    ensures v.demo <==> ShowsDemo(p)
    ensures v.badge == CategoryColor(CategoryId(p.category))
  {
    var open := expanded == Some(p.id);
    CardView(
      CategoryColor(CategoryId(p.category)),
      Preview.Truncate(p.techStack),
      ShowsDemo(p),
      open,
      if open then Some(ExpandedView(p.terminalCommands, p.techStack)) else None)
  }

  /** The tech preview of a card: the first `min(3, n)` technologies, and `+(n - 3)` exactly when
      there are more than three. */
  lemma TechPreview(p: Project, expanded: Option<string>)
    ensures Card(p, expanded).techPreview.shown == p.techStack[..if |p.techStack| <= 3 then |p.techStack| else 3]
    ensures Card(p, expanded).techPreview.badge.Some? <==> |p.techStack| > 3
    ensures Card(p, expanded).techPreview.badge.Some? ==> Card(p, expanded).techPreview.badge.value == |p.techStack| - 3
  {
  }

  /** Card `i` is expanded exactly when its key is the stored id, so with distinct keys at most
      one card is expanded whatever id is stored, and the initial null expands none. */
  lemma AtMostOneCardExpanded(projects: seq<Project>, expanded: Option<string>)
    requires Seqs.Distinct(Ids(projects))
    ensures forall i :: 0 <= i < |projects| ==>
      (Card(projects[i], expanded).expandedContent.Some? <==> Expansion.IsExpanded(expanded, Ids(projects)[i]))
    ensures Expansion.ExpandedCards(Ids(projects), expanded) <= 1
    ensures Expansion.ExpandedCards(Ids(projects), None) == 0
  {
    Expansion.AtMostOneExpanded(Ids(projects), expanded);
  }

  /** The card grid's state: the single nullable `expandedProject`. */
  class ProjectGrid {
    const projects: seq<Project>
    var expandedProject: Option<string>

    /** With distinct keys at most one card is expanded. */
    ghost predicate Valid()
      reads this
    {
      Seqs.Distinct(Ids(projects)) && Expansion.ExpandedCards(Ids(projects), expandedProject) <= 1
    }

    /** The first render: no card is expanded. */
    constructor (projects: seq<Project>)
      requires Seqs.Distinct(Ids(projects))
      ensures Valid()
      ensures this.projects == projects && expandedProject == None
      ensures Expansion.ExpandedCards(Ids(projects), expandedProject) == 0
    {
      this.projects := projects;
      expandedProject := None;
      new;
      AtMostOneCardExpanded(projects, None);
    }

    /** `toggleProject`: clicking the chevron of card `id` collapses it if it was the expanded
        card and otherwise makes it the expanded card; at most one card stays expanded. */
    method ToggleProject(id: string)
      requires Valid()
      modifies this
      ensures Valid()
      ensures expandedProject == Expansion.Toggle(old(expandedProject), id)
      ensures forall p :: p in projects ==>
        (Card(p, expandedProject).expandedContent.Some? <==>
         p.id == id && !Card(p, old(expandedProject)).expandedContent.Some?)
    {
      expandedProject := Expansion.Toggle(expandedProject, id);
      AtMostOneCardExpanded(projects, expandedProject);
    }
  }

  /** The site's cards have distinct keys. */
  lemma SiteProjectIdsDistinct()
    ensures Seqs.Distinct(Ids(AllProjects))
  {
  }

  /** None of the site's projects has a live URL, so no card shows a Demo link; every project has
      a terminal script, so every expanded card shows a terminal. */
  lemma SiteProjectLinks(i: nat, expanded: Option<string>)
    requires i < |AllProjects|
    ensures !Card(AllProjects[i], expanded).demo
    ensures Card(AllProjects[i], expanded).expandedContent.Some? ==>
            Card(AllProjects[i], expanded).expandedContent.value.terminal.Some?
  {
  }

  /** The homelab terminal shows the canned output of every command. */
  lemma HomelabTerminalOutputs()
    ensures Terminal.OutputFor(Terminal.CommandOutputs(), "ssh root@proxmox.local") == Terminal.SshOutput
    ensures Terminal.OutputFor(Terminal.CommandOutputs(), "pvesm status") == Terminal.PvesmOutput
    ensures Terminal.OutputFor(Terminal.CommandOutputs(), "docker ps") == Terminal.DockerPsOutput
    ensures Terminal.OutputFor(Terminal.CommandOutputs(), "systemctl status grafana-server") == Terminal.GrafanaStatusOutput
  {
  }

  /** The Snipe-IT commands have no canned output, so each of them shows the placeholder. */
  lemma SnipeItTerminalOutputs()
    ensures Terminal.OutputFor(Terminal.CommandOutputs(), "pip install pandas requests python-dotenv openpyxl") == Terminal.Placeholder
    ensures Terminal.OutputFor(Terminal.CommandOutputs(), "python get_seat_id.py") == Terminal.Placeholder
    ensures Terminal.OutputFor(Terminal.CommandOutputs(), "python license_import.py") == Terminal.Placeholder
  {
  }

  /** Clicking the homelab card, then the Snipe-IT card, then the Snipe-IT card again. */
  method ExpansionScenario() {
    SiteProjectIdsDistinct();
    var grid := new ProjectGrid(AllProjects);
    grid.ToggleProject("homelab");
    assert Card(AllProjects[0], grid.expandedProject).expandedContent.Some?;
    grid.ToggleProject("snipe-it-automation");
    assert Card(AllProjects[1], grid.expandedProject).expandedContent.Some?;
    assert !Card(AllProjects[0], grid.expandedProject).expandedContent.Some?;
    grid.ToggleProject("snipe-it-automation");
    assert grid.expandedProject == None;
  }
}
