/** The experience timeline (components/ExperienceSection.tsx): one card per position, always
    listing its skills, and one card at a time expanded to list its key achievements. */
module Experience {
  import opened Wrappers
  import Seqs
  import Expansion

  /** An `Experience`. The description and the icon are display text and are not modelled. */
  datatype Position = Position(
    id: string, title: string, company: string, location: string, period: string,
    achievements: seq<string>, skills: seq<string>)

  /** The constant list of positions, newest first. */
  const Experiences: seq<Position> := [
    Position("rcm-internship", "IT Intern", "RCM Healthcare Services", "Long Island, NY",
             "May 2024 - August 2025 (Summers)",
             [ "Reduced laptop provisioning and setup time by 50%, enhancing operational efficiency and productivity",
               "Contributed to the development of a company-wide email management naming scheme, improving organization and consistency",
               "Supported the research and implementation of new IT asset management tools, streamlining asset tracking and resource allocation" ],
             ["IT Infrastructure", "Asset Management", "Process Optimization", "System Administration", "Documentation"]),
    Position("ud-ta-role", "Teaching Assistant – CISC210: Introduction to Systems Programming",
             "University of Delaware", "Newark, DE", "February 2024 - May 2024",
             [ "Provided support for student projects involving embedded systems and interactive objects",
               "Held weekly office hours to offer one-on-one guidance on debugging, low-level programming, and efficient resource usage",
               "Graded assignments and labs with attention to correctness, style, and performance",
               "Reinforced key concepts such as pointer arithmetic, memory allocation, and interfacing with hardware",
               "Guided students in understanding and applying system-level constraints in code design" ],
             ["C/C++", "Systems Programming", "Teaching", "Debugging", "Memory Management", "Hardware Interface"]),
    Position("radulescu-internship", "Product Analysis Intern", "Radulescu LLP — Patent Litigators",
             "Long Island, NY", "January 2023/24",
             [ "Disassembled and organized hundreds of LED bulbs for patent analysis",
               "Developed a nomenclature system to organize the bulbs inside Microsoft Excel, increasing bulb look-up time by 50 percent",
               "Analyzed the type of LED on the PCB and the markings on the PCB of each bulb to classify which factory the bulb originated from" ],
             ["Technical Analysis", "Data Organization", "Microsoft Excel", "PCB Analysis", "Patent Research"]),
    Position("camp-scatico", "Assistant Division Leader / Assistant Head of Woodshop", "Camp Scatico",
             "New York", "May 2021 – August 2023 (Summers)",
             [ "Fostered an open and welcoming environment to allow children to strengthen and make new connections",
               "Created and organized personalized workout plans for 50+ campers, helping them to further their knowledge of fitness as well achieve their fitness goals",
               "Directed and developed a woodworking program to teach kids valuable project design and problem-solving skills" ],
             ["Leadership", "Teaching", "Program Development", "Fitness Training", "Woodworking", "Child Development"]),
    Position("homelab-project", "Homelab Infrastructure Project", "Personal Project", "Home Lab",
             "September 2021 – Present",
             [ "Deployed multiple instances of Proxmox Virtual Environment on many different ranges of hardware to host several different operating systems",
               "Utilized multiple Ubuntu 22.04 and 23.04 instances to run different services using a combination of virtual machines and lxc containers",
               "Implemented many different Docker containers using Docker Compose as well as Docker Run for media streaming, media organization, network administration, remote management, remote access, internal DNS filtering, and several others",
               "Implemented different methods of data storage and access across the network for local and remote access",
               "Implemented real-time detection of up-time statistics for all running programs and services with notifications via a discord webhook if anything fails to decrease downtime by 20 percent" ],
             ["Proxmox", "Docker", "Ubuntu", "LXC Containers", "Network Administration", "Discord Webhooks", "System Monitoring"])
  ]

  /** The React keys of the cards. */
  function Ids(positions: seq<Position>): (r: seq<string>)
    ensures |r| == |positions| && forall i :: 0 <= i < |r| ==> r[i] == positions[i].id
  {
    Seqs.Map(positions, (e: Position) => e.id)
  }

  /** One bullet of the achievements list, keyed by its index. */
  datatype Bullet = Bullet(key: nat, text: string)

  /** The achievements as rendered: bullet `i` holds achievement `i` under key `i`. */
  function Bullets(achievements: seq<string>): (r: seq<Bullet>)
    ensures |r| == |achievements|
    ensures forall i :: 0 <= i < |r| ==> r[i].key == i && r[i].text == achievements[i]
  {
    seq(|achievements|, i requires 0 <= i < |achievements| => Bullet(i, achievements[i]))
  }

  /** What a card renders given the expanded id. */
  datatype CardView = CardView(skills: seq<string>, chevronUp: bool, achievements: Option<seq<Bullet>>)

  function Card(e: Position, expanded: Option<string>): (v: CardView)
    ensures v.chevronUp <==> Expansion.IsExpanded(expanded, e.id)
    ensures v.achievements.Some? <==> Expansion.IsExpanded(expanded, e.id)
    ensures v.achievements.Some? ==> v.achievements.value == Bullets(e.achievements)
  {
    var open := expanded == Some(e.id);
    CardView(e.skills, open, if open then Some(Bullets(e.achievements)) else None)
  }

  /** The skills are listed whatever is expanded: every skill of the position, in order. */
  lemma SkillsAlwaysShown(e: Position, expanded: Option<string>, other: Option<string>)
    ensures Card(e, expanded).skills == Card(e, other).skills == e.skills
  {
  }

  /** An expanded card lists every achievement, in order, under keys that are distinct. */
  lemma ExpandedListsAllAchievements(e: Position)
    ensures Card(e, Some(e.id)).achievements.Some?
    ensures forall i :: 0 <= i < |e.achievements| ==>
      i < |Card(e, Some(e.id)).achievements.value| && Card(e, Some(e.id)).achievements.value[i].text == e.achievements[i]
    ensures forall i, j :: 0 <= i < j < |Card(e, Some(e.id)).achievements.value| ==>
      Card(e, Some(e.id)).achievements.value[i].key != Card(e, Some(e.id)).achievements.value[j].key
  {
  }

  /** Card `i` is expanded exactly when its key is the stored id, so with distinct keys at most
      one card is expanded whatever id is stored, and the initial null expands none. */
  lemma AtMostOneCardExpanded(positions: seq<Position>, expanded: Option<string>)
    requires Seqs.Distinct(Ids(positions))
    ensures forall i :: 0 <= i < |positions| ==>
      (Card(positions[i], expanded).achievements.Some? <==> Expansion.IsExpanded(expanded, Ids(positions)[i]))
    ensures Expansion.ExpandedCards(Ids(positions), expanded) <= 1
    ensures Expansion.ExpandedCards(Ids(positions), None) == 0
  {
    Expansion.AtMostOneExpanded(Ids(positions), expanded);
  }

  /** The timeline's state: the single nullable `expandedExperience`. */
  class Timeline {
    const positions: seq<Position>
    var expandedExperience: Option<string>

    /** With distinct keys at most one card is expanded. */
    ghost predicate Valid()
      reads this
    {
      Seqs.Distinct(Ids(positions)) && Expansion.ExpandedCards(Ids(positions), expandedExperience) <= 1
    }

    /** The first render: no card is expanded. */
    constructor (positions: seq<Position>)
      requires Seqs.Distinct(Ids(positions))
      ensures Valid()
      ensures this.positions == positions && expandedExperience == None
      ensures Expansion.ExpandedCards(Ids(positions), expandedExperience) == 0
    {
      this.positions := positions;
      expandedExperience := None;
      new;
      AtMostOneCardExpanded(positions, None);
    }

    /** `toggleExperience`: clicking the chevron of card `id` collapses it if it was the expanded
        card and otherwise makes it the expanded card; at most one card stays expanded. */
    method ToggleExperience(id: string)
      requires Valid()
      modifies this
      ensures Valid()
      ensures expandedExperience == Expansion.Toggle(old(expandedExperience), id)
      ensures forall e :: e in positions ==>
        (Card(e, expandedExperience).achievements.Some? <==>
         e.id == id && !Card(e, old(expandedExperience)).achievements.Some?)
    {
      expandedExperience := Expansion.Toggle(expandedExperience, id);
      AtMostOneCardExpanded(positions, expandedExperience);
    }
  }

  /** The site's cards have distinct keys. */
  lemma SiteIdsDistinct()
    ensures Seqs.Distinct(Ids(Experiences))
  {
  }

  /** Opening the teaching card, then the homelab card: only the last one clicked lists its
      achievements, and the teaching card lists five. */
  method ExpansionScenario() {
    SiteIdsDistinct();
    var t := new Timeline(Experiences);
    t.ToggleExperience("ud-ta-role");
    assert |Card(Experiences[1], t.expandedExperience).achievements.value| == 5;
    t.ToggleExperience("homelab-project");
    assert Card(Experiences[4], t.expandedExperience).achievements.Some?;
    assert Card(Experiences[1], t.expandedExperience).achievements.None?;
  }
}
