/** The skills section (src/components/SkillsSection.tsx): the bar chart of the selected category,
    the pie of skills per category, and the bubbles of all skills with a level label on hover. */
module Skills {
  import opened Wrappers
  import Seqs

  /** The closed union `'languages' | 'tools' | 'os' | 'frameworks'`. */
  datatype SkillCategory = Languages | Tools | Os | Frameworks

  /** A `Skill`: name, level in percent, category and chart colour. */
  datatype Skill = Skill(name: string, level: int, category: SkillCategory, color: string)

  /** The constant list of skills (the commented-out entries of the source are not part of it). */
  const AllSkills: seq<Skill> := [
    Skill("Java", 50, Languages, "#f89820"),
    Skill("C", 60, Languages, "#00599c"),
    Skill("Python", 70, Languages, "#3776ab"),
    Skill("JavaScript", 75, Languages, "#f7df1e"),
    Skill("TypeScript", 80, Languages, "#3178c6"),
    Skill("Bash", 73, Languages, "#4eaa25"),
    Skill("Docker", 90, Tools, "#2496ed"),
    Skill("Git", 80, Tools, "#f05032"),
    Skill("Ubuntu", 70, Os, "#e95420"),
    Skill("Proxmox", 80, Os, "#e57000"),
    Skill("Linux", 70, Os, "#fcc624"),
    Skill("Windows", 90, Os, "#0078d4"),
    Skill("macOS", 65, Os, "#000000"),
    Skill("React", 75, Frameworks, "#61dafb"),
    Skill("Node.js", 70, Frameworks, "#339933"),
    Skill("Express", 70, Frameworks, "#000000"),
    Skill("Next.js", 25, Frameworks, "#000000")
  ]

  /** The tab selected on first render. */
  const InitialCategory := Languages

  /** `filteredSkills`: the skills of the selected category, in their original order. */
  function FilteredSkills(skills: seq<Skill>, selected: SkillCategory): (r: seq<Skill>)
    ensures forall i :: 0 <= i < |r| ==> r[i] in skills && r[i].category == selected
    ensures forall i :: 0 <= i < |skills| && skills[i].category == selected ==> skills[i] in r
  {
    Seqs.Filter(skills, (s: Skill) => s.category == selected)
  }

  /** The order is kept: filtering distributes over concatenation. */
  lemma FilteredSkillsKeepOrder(a: seq<Skill>, b: seq<Skill>, selected: SkillCategory)
    ensures FilteredSkills(a + b, selected) == FilteredSkills(a, selected) + FilteredSkills(b, selected)
  {
    Seqs.FilterAppend(a, b, (s: Skill) => s.category == selected);
  }

  /** One bar of the chart. */
  datatype ChartPoint = ChartPoint(name: string, level: int, color: string)

  /** `chartData`: one bar per filtered skill, at the same position, with its name, level and colour. */
  function ChartData(filtered: seq<Skill>): (r: seq<ChartPoint>)
    ensures |r| == |filtered|
    ensures forall i :: 0 <= i < |r| ==>
      r[i].name == filtered[i].name && r[i].level == filtered[i].level && r[i].color == filtered[i].color
  {
    seq(|filtered|, i requires 0 <= i < |filtered| => ChartPoint(filtered[i].name, filtered[i].level, filtered[i].color))
  }

  /** One slice of the pie. */
  datatype PieSlice = PieSlice(name: string, value: nat, color: string)

  /** `pieData`: the number of skills of each category, in tab order. */
  function PieData(skills: seq<Skill>): (r: seq<PieSlice>)
    ensures |r| == 4
    ensures r[0].value == |FilteredSkills(skills, Languages)| && r[1].value == |FilteredSkills(skills, Tools)|
    ensures r[2].value == |FilteredSkills(skills, Os)| && r[3].value == |FilteredSkills(skills, Frameworks)|
  {
    [ PieSlice("Languages", |FilteredSkills(skills, Languages)|, "#0ea5e9"),
      PieSlice("Tools", |FilteredSkills(skills, Tools)|, "#22c55e"),
      PieSlice("OS", |FilteredSkills(skills, Os)|, "#f59e0b"),
      PieSlice("Frameworks", |FilteredSkills(skills, Frameworks)|, "#8b5cf6") ]
  }

  /** The four categories are a closed union, so the pie's slices add up to every skill. */
  lemma {:induction false} PieSumsToAll(skills: seq<Skill>)
    ensures PieData(skills)[0].value + PieData(skills)[1].value + PieData(skills)[2].value
            + PieData(skills)[3].value == |skills|
  {
    if skills != [] {
      PieSumsToAll(skills[1..]);
    }
  }

  /** Hover start on a bubble: `hoveredSkill` becomes its name. */
  function HoverStart(name: string): (h: Option<string>)
    ensures h.Some? && h.value == name
  {
    Some(name)
  }

  /** Hover end: `hoveredSkill` becomes null. */
  function HoverEnd(): (h: Option<string>)
    ensures h.None?
  {
    None
  }

  /** One bubble of the "All Skills" list: highlighted, with its level label, exactly when hovered. */
  datatype Bubble = Bubble(name: string, highlighted: bool, levelLabel: Option<int>)

  /** The bubbles: every skill, whatever category is selected, in list order. */
  function Bubbles(skills: seq<Skill>, hovered: Option<string>): (r: seq<Bubble>)
    ensures |r| == |skills|
    ensures forall i :: 0 <= i < |r| ==> r[i].name == skills[i].name
    ensures forall i :: 0 <= i < |r| ==> (r[i].highlighted <==> hovered == Some(skills[i].name))
    ensures forall i :: 0 <= i < |r| ==> (r[i].levelLabel.Some? <==> hovered == Some(skills[i].name))
    ensures forall i :: 0 <= i < |r| && r[i].levelLabel.Some? ==> r[i].levelLabel.value == skills[i].level
  {
    seq(|skills|, i requires 0 <= i < |skills| =>
      var on := hovered == Some(skills[i].name);
      Bubble(skills[i].name, on, if on then Some(skills[i].level) else None))
  }

  /** The names of the skills, as the bubbles' React keys. */
  function Names(skills: seq<Skill>): (r: seq<string>)
    ensures |r| == |skills| && forall i :: 0 <= i < |r| ==> r[i] == skills[i].name
  {
    Seqs.Map(skills, (s: Skill) => s.name)
  }

  /** With distinct names at most one bubble shows a level label; after hover end none does. */
  lemma AtMostOneLevelLabel(skills: seq<Skill>, hovered: Option<string>)
    requires Seqs.Distinct(Names(skills))
    ensures forall i, j :: 0 <= i < j < |skills| ==>
      !(Bubbles(skills, hovered)[i].levelLabel.Some? && Bubbles(skills, hovered)[j].levelLabel.Some?)
    ensures forall i :: 0 <= i < |skills| ==> Bubbles(skills, HoverEnd())[i].levelLabel.None?
  {
    forall i, j | 0 <= i < j < |skills|
      ensures !(Bubbles(skills, hovered)[i].levelLabel.Some? && Bubbles(skills, hovered)[j].levelLabel.Some?)
    {
      assert Names(skills)[i] != Names(skills)[j];
    }
  }

  /** A block of skills of one category counts fully in its own slice and not at all elsewhere. */
  lemma BlockCount(block: seq<Skill>, b: SkillCategory, c: SkillCategory)
    requires forall i :: 0 <= i < |block| ==> block[i].category == b
    ensures |FilteredSkills(block, c)| == if c == b then |block| else 0
  {
    if c == b {
      Seqs.FilterKeepsAll(block, (s: Skill) => s.category == c);
    } else {
      Seqs.FilterKeepsNone(block, (s: Skill) => s.category == c);
    }
  }

  /** The site's list is four blocks, one per category, in tab order. */
  lemma SiteSkillBlocks()
    ensures AllSkills == AllSkills[..6] + AllSkills[6..8] + AllSkills[8..13] + AllSkills[13..]
    ensures |AllSkills[..6]| == 6 && |AllSkills[6..8]| == 2 && |AllSkills[8..13]| == 5 && |AllSkills[13..]| == 4
    ensures forall i :: 0 <= i < |AllSkills[..6]| ==> AllSkills[..6][i].category == Languages
    ensures forall i :: 0 <= i < |AllSkills[6..8]| ==> AllSkills[6..8][i].category == Tools
    ensures forall i :: 0 <= i < |AllSkills[8..13]| ==> AllSkills[8..13][i].category == Os
    ensures forall i :: 0 <= i < |AllSkills[13..]| ==> AllSkills[13..][i].category == Frameworks
  {
  }

  /** The site's skills: 6 languages, 2 tools, 5 operating systems and 4 frameworks. */
  lemma SiteSkillCount(c: SkillCategory)
    ensures |FilteredSkills(AllSkills, c)| ==
      (if c == Languages then 6 else 0) + (if c == Tools then 2 else 0)
      + (if c == Os then 5 else 0) + (if c == Frameworks then 4 else 0)
  {
    SiteSkillBlocks();
    var langs, tools, os, frameworks := AllSkills[..6], AllSkills[6..8], AllSkills[8..13], AllSkills[13..];
    FilteredSkillsKeepOrder(langs + tools + os, frameworks, c);
    FilteredSkillsKeepOrder(langs + tools, os, c);
    FilteredSkillsKeepOrder(langs, tools, c);
    BlockCount(langs, Languages, c);
    BlockCount(tools, Tools, c);
    BlockCount(os, Os, c);
    BlockCount(frameworks, Frameworks, c);
  }

  /** No two of the site's skills share a name, so at most one level label is ever shown. */
  lemma SiteSkillNamesDistinct()
    ensures Seqs.Distinct(Names(AllSkills))
  {
  }
}
