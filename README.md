# Portfolio site sections, modelled in Dafny

This project models the interactive sections of a personal portfolio site, a React single-page
application. Each section's state and render conditions are modelled and then proved:

- **Scripted terminal** (`Terminal`). A cursor walks a fixed list of shell commands. Every timer
  tick appends the next command and its canned output, or a placeholder, to the transcript.
  A Reset button starts playback over.
- **Typewriter headline** (`Hero`). Once the section is in view, one character of the headline
  is revealed per tick.
- **Contact form** (`Contact`). Four fields and a simulated submission: a spinner, then a success
  panel, then a cleared form.
- **Homelab dashboard** (`Homelab`). Four machines whose readings drift by a random amount
  every interval and are clamped to fixed ranges. Also the status and usage colour rules.
- **Blog** (`Blog`). Category tabs with post counts, the posts of the selected category, the featured
  block under "All Posts", and the first-three tag preview.
- **Skills** (`Skills`). The bar chart of the selected category, the per-category pie, and the
  bubbles of all skills, with a level label on hover.
- **Project cards** (`Projects`) and the **experience timeline** (`Experience`). One nullable id
  says which single card is expanded. An expanded project card shows a terminal and the full
  stack; an expanded experience card shows the achievements.

Shared modules:
- `Wrappers` holds `Option`.
- `Seqs` holds `Array.prototype.filter` with its lemmas, `Array.prototype.map` (`Seqs.Map`, used for the card keys and the skill names), key counting and distinctness.
- `Preview` holds the "first three, then +N" truncation.
- `Expansion` holds the single-expansion toggle.

Six sections get a Dafny `class`: the terminal player (`Terminal.Player`), the typewriter
(`Hero.Typewriter`), the contact form (`Contact.ContactForm`), the dashboard (`Homelab.Dashboard`),
the project grid (`Projects.ProjectGrid`) and the timeline (`Experience.Timeline`). Each class has a
`Valid()` invariant, and each of its state setters or timer callbacks is a method with
`modifies this`. The blog's and the skills section's selected category and the hovered skill are
not classes. They are plain inputs of the pure functions that render them, and `Skills.HoverStart`
and `Skills.HoverEnd` are the values their setters store. Render logic, filters and colour rules
are pure functions.

Timers are discrete events. A timer callback, together with the effect re-run that its state change
triggers, is one `Tick`. Cleanup (`clearTimeout`/`clearInterval`) is `Teardown`, which disarms the
pending step. A tick with no armed timer changes nothing.

`Math.random()` is a parameter: `Homelab.Jitter` holds the three random terms of one update, and
`JitterInRange` gives the range they take.

Two behaviours of the code are easy to misread:

- A command whose canned output is the empty string shows the placeholder. This is the `||`
  fallback of `components/InteractiveTerminal.tsx:45`; `gcc …` and `javac …` have empty outputs.
- Reset re-runs the playback effect only when the cursor actually moves. That is React's dependency
  on the cursor. So a Reset issued while the cursor is already 0 leaves a pending first step armed,
  keeping its original deadline. It also hides the typing line until that step fires.
  `Terminal.Player.Reset` states both cases.

## Model

| member | source | states |
|---|---|---|
| Preview.Truncate | src/components/ProjectsSection.tsx:202-209 | shows the first min(n, 3) items as a prefix of the list; a badge appears iff n > 3, and its number is positive and makes up the rest of the list |
| Preview.PreviewAccountsForAll | src/components/BlogSection.tsx:229-237 | the shown items followed by the hidden ones are the whole list, and the badge counts exactly the hidden ones (0 when there is none) |
| Expansion.Toggle | src/components/ProjectsSection.tsx:131-133 | after clicking card `id`, exactly card `id` is expanded if it was not before, and no card is expanded (null) iff it was |
| Expansion.ToggleTwice | src/components/ProjectsSection.tsx:131-133 | two clicks on the same card end at `id` if it started expanded, otherwise at null |
| Expansion.ToggleCollapsesOthers | components/ExperienceSection.tsx:110-112 | any click collapses every card other than the clicked one |
| Expansion.ExpandedCards | src/components/ProjectsSection.tsx:243 | the number of expanded cards is at most the number of cards, and is zero iff no key equals the stored id |
| Expansion.ExpandedCardsCountKey | src/components/ProjectsSection.tsx:243 | the expanded cards are exactly the occurrences of the stored id among the keys (none for null) |
| Expansion.AtMostOneExpanded | src/components/ProjectsSection.tsx:125 | with distinct keys any stored id expands at most one card, and the initial null expands none |
| Terminal.OutputFor | components/InteractiveTerminal.tsx:45 | the output is never empty; it is the canned output or the placeholder; a present, non-empty canned output is always used |
| Terminal.EmptyOutputsFallBack | components/InteractiveTerminal.tsx:19-36 | the two commands with empty canned outputs (`gcc …`, `javac …`) show the placeholder |
| Terminal.Played | components/InteractiveTerminal.tsx:43-47 | the transcript of k revealed commands has exactly k entries |
| Terminal.PlayedAt | components/InteractiveTerminal.tsx:79-97 | entry i holds command i with its looked-up output, is not executing, and its output line is rendered (non-empty) |
| Terminal.PlayedStep | components/InteractiveTerminal.tsx:41-48 | revealing one more command appends exactly that command's entry to the transcript |
| Terminal.Player.constructor | components/InteractiveTerminal.tsx:11-17 | cursor 0, empty transcript, no typing line, no pending timer |
| Terminal.Player.RunEffect | components/InteractiveTerminal.tsx:38-54 | while commands remain, shows the typing line and arms the step; past the end changes nothing |
| Terminal.Player.Fire | components/InteractiveTerminal.tsx:41-50 | an armed step appends the entry for the command under the cursor, advances the cursor by one and stops typing; an unarmed one changes nothing |
| Terminal.Player.Tick | components/InteractiveTerminal.tsx:38-54 | one step, along with the effect re-run: appends the next entry, and is typing again iff commands remain; once every command is shown nothing changes |
| Terminal.Player.Teardown | components/InteractiveTerminal.tsx:52 | clearing the timeout disarms the step and keeps transcript, cursor and typing flag |
| Terminal.Player.Reset | components/InteractiveTerminal.tsx:56-60 | cursor 0 and empty transcript; when the cursor moved, typing and timer restart iff there are commands; at cursor 0 the typing line hides and a pending step survives |
| Terminal.Player.DisplayConditions | components/InteractiveTerminal.tsx:99-115 | the typing line names an existing command, never shows with the "Next command" hint, and neither shows after the last command |
| Terminal.Player.ShowsTypingLine | components/InteractiveTerminal.tsx:99-109 | in any reachable state the typing line names a command that exists |
| Terminal.Player.ShowsNextHint | components/InteractiveTerminal.tsx:111-115 | in any reachable state the "Next command in 2s..." hint shows exactly when no step is being typed and some command has not yet reached the transcript, so never after the last command |
| Terminal.Player.TranscriptAt | components/InteractiveTerminal.tsx:79-97 | in any reachable state, transcript entry i is command i (i before the cursor) with its looked-up output |
| Hero.SliceTo | src/components/HeroSection.tsx:20 | `slice(0, end)` is a prefix of the text of length min(end, length) |
| Hero.SliceStep | src/components/HeroSection.tsx:20-21 | each reveal step adds exactly the next character |
| Hero.Typewriter.constructor | src/components/HeroSection.tsx:7-14 | nothing typed, index 0, not in view, no pending timer, the site headline |
| Hero.Typewriter.RunEffect | src/components/HeroSection.tsx:17-25 | arms the timer iff in view and characters remain; the text is untouched |
| Hero.Typewriter.ComeIntoView | src/components/HeroSection.tsx:9-12 | the observer fires once: entering view arms the timer iff characters remain; when already in view nothing changes |
| Hero.Typewriter.Tick | src/components/HeroSection.tsx:19-22 | an armed tick appends the next character and advances the index by one, re-arming iff characters remain; out of view or complete, nothing changes |
| Hero.Typewriter.Teardown | src/components/HeroSection.tsx:23 | clearing the timeout disarms it and keeps the text |
| Hero.Typewriter.DoneShowsFullText | src/components/HeroSection.tsx:17-25 | once the index reaches the end the whole headline is shown and no tick is pending |
| Contact.AttributeNamesDistinct | components/ContactSection.tsx:116-163 | the four inputs carry four different `name` attributes, so an event names exactly one field |
| Contact.With | components/ContactSection.tsx:22-27 | the named field takes the new value and the other three keep theirs |
| Contact.EmptyFormIsEmpty | components/ContactSection.tsx:42 | every field of the reset form is empty |
| Contact.ContactForm.constructor | components/ContactSection.tsx:9-16 | every field empty, neither submitting nor submitted |
| Contact.ContactForm.Change | components/ContactSection.tsx:22-27 | only the named field changes; both flags are kept |
| Contact.ContactForm.Submit | components/ContactSection.tsx:29-31 | starts submitting and keeps the form data; called only with every (`required`) field filled in |
| Contact.ContactForm.SendingDone | components/ContactSection.tsx:34-37 | after the 2000 ms wait: no longer submitting, submitted, data kept |
| Contact.ContactForm.ResetDone | components/ContactSection.tsx:40-43 | after the 3000 ms timer: panel closed and every field cleared |
| Contact.ContactForm.ShowsSuccessPanel | components/ContactSection.tsx:96 | in any reachable state the success panel never shows while a submission is being sent |
| Contact.ContactForm.SubmitDisabled | components/ContactSection.tsx:175 | in any reachable state the button is disabled only while sending, never behind the success panel |
| Contact.ContactForm.DisplayConditions | components/ContactSection.tsx:96-180 | the disabled "Sending..." button and the success panel are never shown together |
| Homelab.Clamp | src/components/HomelabSection.tsx:71-73 | `Math.max(lo, Math.min(hi, x))` is x when x is in range, hi when x is above it, lo when x is below it, and lo whenever lo > hi; so it is at least lo, at most hi when lo <= hi, and always one of lo, x, hi |
| Homelab.Updated | src/components/HomelabSection.tsx:69-75 | after an update every reading is in its range; name, status, uptime and disk are kept; lastUpdate is "Just now"; each random term is applied when the result stays in range, and otherwise the reading saturates at the bound it crossed (95 or 5 for cpu, 90 or 10 for memory, 50 or 1 for network) |
| Homelab.UpdateMovesLittle | src/components/HomelabSection.tsx:71-73 | from in-range readings one update moves cpu by at most 5, memory by at most 2.5 and network by at most 4 |
| Homelab.InitialSystems | src/components/HomelabSection.tsx:18-59 | four machines, all readings inside the clamp ranges |
| Homelab.Dashboard.constructor | src/components/HomelabSection.tsx:18-79 | the initial list and a running interval |
| Homelab.Dashboard.Tick | src/components/HomelabSection.tsx:68-76 | every record is replaced by its update, in the same order, and all readings stay in range; after teardown nothing changes |
| Homelab.Dashboard.Teardown | src/components/HomelabSection.tsx:78 | clearing the interval stops updates and keeps the list |
| Homelab.StatusColor | src/components/HomelabSection.tsx:81-88 | grey iff the status is not one of the three known ones |
| Homelab.StatusColorsDistinct | src/components/HomelabSection.tsx:81-88 | the three statuses get three different non-grey colours: green, yellow, red |
| Homelab.UsageColor | src/components/HomelabSection.tsx:99-103 | green iff below 50, yellow iff from 50 up to but not including 80, red iff 80 or more |
| Homelab.UsageColorMonotone | src/components/HomelabSection.tsx:99-103 | higher usage never gets a calmer colour |
| Blog.OfCategory | src/components/BlogSection.tsx:91-94 | exactly the posts of category c, the list each category tab counts |
| Blog.Categories | src/components/BlogSection.tsx:89-95 | five tabs; "all" counts every post, each other tab counts the posts of its category |
| Blog.FilteredPosts | src/components/BlogSection.tsx:97-99 | under "all" every post; otherwise exactly the posts whose category id is the selection |
| Blog.CountsSumToAll | src/components/BlogSection.tsx:89-95 | the four category counts add up to the "All Posts" count |
| Blog.TabCountMatchesSelection | src/components/BlogSection.tsx:89-99 | each tab's number is the number of posts the list shows when that tab is selected |
| Blog.FilteredPostsKeepOrder | src/components/BlogSection.tsx:99 | filtering distributes over concatenation, so the original order is kept |
| Blog.FeaturedBlock | src/components/BlogSection.tsx:158-165 | empty unless "all" is selected; under "all" exactly the featured posts |
| Blog.Grid | src/components/BlogSection.tsx:205 | exactly the filtered posts, less the featured ones while "all" is selected |
| Blog.AllShowsEachPostOnce | src/components/BlogSection.tsx:205 | under "all" the featured block and the grid together show every post exactly once |
| Blog.GridOutsideAll | src/components/BlogSection.tsx:205 | under any other selection the grid is exactly the filtered posts, featured ones included |
| Blog.TagPreview | src/components/BlogSection.tsx:229-237 | a card shows its first min(n, 3) tags, and `+{n - 3} more` iff n > 3 |
| Blog.CategoryColor | src/components/BlogSection.tsx:101-109 | grey iff the category is not one of the four known ones |
| Blog.CategoryColorsDistinct | src/components/BlogSection.tsx:101-109 | different categories get different badge colours |
| Blog.SitePostCounts | src/components/BlogSection.tsx:18-95 | on the site's posts the tabs read 6, 2, 1, 2, 1 |
| Blog.SitePostPreviews | src/components/BlogSection.tsx:18-80 | exactly the first post is featured, and every card shows three tags and a "+1 more" badge |
| Skills.FilteredSkills | src/components/SkillsSection.tsx:58 | exactly the skills of the selected category |
| Skills.FilteredSkillsKeepOrder | src/components/SkillsSection.tsx:58 | filtering distributes over concatenation, so the original order is kept |
| Skills.ChartData | src/components/SkillsSection.tsx:59-63 | one bar per filtered skill, at the same position, with its name, level and colour |
| Skills.PieData | src/components/SkillsSection.tsx:65-70 | four slices in tab order, each valued at the number of skills of its category |
| Skills.PieSumsToAll | src/components/SkillsSection.tsx:65-70 | the slices add up to the number of skills |
| Skills.HoverStart | src/components/SkillsSection.tsx:200 | hovering a bubble stores its name |
| Skills.HoverEnd | src/components/SkillsSection.tsx:201 | leaving a bubble clears the hovered name |
| Skills.Bubbles | src/components/SkillsSection.tsx:193-224 | one bubble per skill, in list order, whatever the category; highlighted and labelled with its level iff it is the hovered one |
| Skills.Names | src/components/SkillsSection.tsx:195 | the bubbles' keys are the skills' names, in order |
| Skills.AtMostOneLevelLabel | src/components/SkillsSection.tsx:216-224 | with distinct names at most one level label is shown, and none after hover end |
| Skills.BlockCount | src/components/SkillsSection.tsx:58 | a run of skills of one category counts fully in its own filter and not at all in the others |
| Skills.SiteSkillBlocks | src/components/SkillsSection.tsx:13-41 | the site's list is four runs, one per category, in tab order, of lengths 6, 2, 5 and 4 |
| Skills.SiteSkillCount | src/components/SkillsSection.tsx:13-41 | the site has 6 languages, 2 tools, 5 operating systems and 4 frameworks |
| Skills.SiteSkillNamesDistinct | src/components/SkillsSection.tsx:13-41 | no two of the site's skills share a name |
| Projects.Ids | src/components/ProjectsSection.tsx:167 | the cards' keys are the projects' ids, in order |
| Projects.CategoryColor | src/components/ProjectsSection.tsx:135-143 | grey iff the category is not one of the four known ones |
| Projects.CategoryColorsDistinct | src/components/ProjectsSection.tsx:135-143 | different categories get different badge colours |
| Projects.ShowsDemo | src/components/ProjectsSection.tsx:226 | an absent and an empty `liveUrl` both hide the Demo link; any other URL shows it |
| Projects.Card | src/components/ProjectsSection.tsx:186-274 | chevron up and expanded content iff the stored id is the card's; the content is the project's own terminal script and full stack; Demo iff a non-empty live URL; the badge is the category colour |
| Projects.TechPreview | src/components/ProjectsSection.tsx:202-209 | the card shows the first min(n, 3) technologies, and `+(n - 3)` iff n > 3 |
| Projects.AtMostOneCardExpanded | src/components/ProjectsSection.tsx:125 | a card is expanded exactly when its id is the stored one, so with distinct ids at most one card is expanded whatever is stored, and null expands none |
| Projects.ProjectGrid.constructor | src/components/ProjectsSection.tsx:125 | no card is expanded at first |
| Projects.ProjectGrid.ToggleProject | src/components/ProjectsSection.tsx:131-133 | stores the toggled id; afterwards exactly the clicked card is expanded if it was not before, and at most one card is expanded |
| Projects.SiteProjectIdsDistinct | src/components/ProjectsSection.tsx:20-122 | the site's project ids are distinct |
| Projects.SiteProjectLinks | src/components/ProjectsSection.tsx:226-260 | no site card shows a Demo link, and every expanded site card shows a terminal |
| Projects.HomelabTerminalOutputs | components/InteractiveTerminal.tsx:19-45 | each of the homelab project's four commands shows its canned output |
| Projects.SnipeItTerminalOutputs | components/InteractiveTerminal.tsx:19-45 | each of the Snipe-IT project's three commands has no canned output and shows the placeholder |
| Experience.Ids | components/ExperienceSection.tsx:140 | the cards' keys are the positions' ids, in order |
| Experience.Bullets | components/ExperienceSection.tsx:203-214 | bullet i holds achievement i under key i |
| Experience.Card | components/ExperienceSection.tsx:176-217 | chevron up and the achievements list iff the stored id is the card's, and the list is every achievement in order |
| Experience.SkillsAlwaysShown | components/ExperienceSection.tsx:184-188 | every skill is listed, in order, whatever is expanded |
| Experience.ExpandedListsAllAchievements | components/ExperienceSection.tsx:193-214 | an expanded card lists every achievement in order, under distinct keys |
| Experience.AtMostOneCardExpanded | components/ExperienceSection.tsx:104 | a card lists its achievements exactly when its id is the stored one, so with distinct ids at most one card does whatever is stored, and null expands none |
| Experience.Timeline.constructor | components/ExperienceSection.tsx:104 | nothing is expanded at first |
| Experience.Timeline.ToggleExperience | components/ExperienceSection.tsx:110-112 | stores the toggled id; afterwards exactly the clicked card is expanded if it was not before, and at most one card is expanded |
| Experience.SiteIdsDistinct | components/ExperienceSection.tsx:21-101 | the site's position ids are distinct |

## Left out

- The animated network background (src/components/NetworkAnimation.tsx) is not modelled. It is canvas drawing driven by animation frames.
- Page composition (app/page.tsx, app/layout.tsx, src/App.tsx, src/main.tsx) is not modelled. It only places the sections on the page.
- Real time is not modelled. The 100, 2000, 3000 and 5000 ms delays are discrete events, and timers are never concurrent beyond what the events express.
- React's batching and scheduling of state updates is not modelled. Each event applies its updates and any effect re-run atomically.
- `Math.random()` is a parameter (`Homelab.Jitter`).
- Homelab: readings are reals, so IEEE floating-point rounding is not modelled. The decimals a badge prints are not modelled either.
- Layout, styling, icons, animation props, charts as drawn, and JSX structure are not modelled. Colour rules and render conditions are.
- `toLocaleDateString`, `scrollIntoView` and the intersection observer's geometry are browser APIs and are not modelled. Coming into view is the event `Hero.Typewriter.ComeIntoView`.
- Blog excerpts and article bodies are display text and are not modelled. Descriptions and icons of projects and positions are not modelled either.
- Terminal.OutputFor: lookups inherited from `Object.prototype` are not modelled. The canned outputs are a JavaScript object literal, so a command named like a prototype member (`constructor`, `toString`, `__proto__`) would find an inherited value rather than the placeholder. The model treats those names as missing keys and shows the placeholder. None of the site's command lists contains such a name.
- Contact, `handleInputChange`: input names other than the four fields cannot occur, because the JSX has only those inputs. The model's `Field` type has exactly four values.
- Contact.ContactForm.Submit: requires that no submission is under way. The button is disabled while submitting, and the form is replaced by the success panel once submitted, so the DOM never calls it otherwise.
- Contact.ContactForm.Submit: requires every field to be non-empty, because each input carries `required` (components/ContactSection.tsx:119, :134, :151, :166). The browser's format check for `type="email"` (:129) is not modelled, so any non-empty email is accepted.
- Contact.ContactForm.SendingDone: requires `isSubmitting` and Contact.ContactForm.ResetDone requires `isSubmitted`. Each is a continuation that exists only in that state.
- Homelab `getStatusIcon` returns icon elements, not data, and is not modelled. Its branches mirror `getStatusColor`, which is modelled.
- Blog: the "+N more" text is modelled as the number N (`Preview.Truncate`), not as the formatted string.
- Skills: the pie's value for the site's own list is stated per category (`Skills.SiteSkillCount`) rather than on the four-slice display.
