/**
 * The abstract page every template produces: a header whose shape is the
 * template's own, and the four content sections. The section code is the
 * same in all four templates (apart from the text of a project's link),
 * so it is defined once here, together with the policy it follows.
 */
module Display {
  import opened Wrappers
  import opened Text
  import opened Lists
  import opened DraftTypes
  import opened Links

  const ProjectHighlightCap: nat := 4
  const TechCap: nat := 10
  const ExperienceHighlightCap: nat := 6
  const SkillCap: nat := 60

  const LocationSeparator: string := " • "

  datatype ProjectCard = ProjectCard(
    title: string,
    link: Option<Anchor>,
    description: Option<string>,
    highlights: Option<seq<string>>,
    tech: Option<seq<string>>)

  /** `company` is the company and, when there is one, the location after a bullet. */
  datatype ExperienceCard = ExperienceCard(
    role: string,
    dates: string,
    company: string,
    highlights: Option<seq<string>>)

  datatype EducationCard = EducationCard(
    school: string,
    degree: string,
    dates: string,
    notes: Option<string>)

  /** `None` is a hidden section: no heading, no body. */
  datatype Sections = Sections(
    projects: Option<seq<ProjectCard>>,
    experience: Option<seq<ExperienceCard>>,
    skills: Option<seq<string>>,
    education: Option<seq<EducationCard>>)

  /** An entry of minimal's in-page navigation bar. */
  datatype NavItem = NavItem(id: string, title: string)

  /** A neo call-to-action button. */
  datatype Cta = Cta(anchor: Anchor, primary: bool)

  /** Glass's location/email line. */
  datatype ContactLine = ContactLine(location: Option<string>, separator: bool, email: Option<string>)

  /** A classic contact row: a caption, the raw value, and the link around the value. */
  datatype Row = Row(caption: string, text: string, link: Option<Anchor>)

  /** The top of the page, one shape per template. */
  datatype Header =
    | MinimalHeader(name: string, headline: Option<string>, location: Option<string>,
                    links: seq<Anchor>, summary: string, nav: Option<seq<NavItem>>)
    | NeoHeader(name: string, headline: Option<string>, pills: seq<string>,
                ctas: Option<seq<Cta>>, summary: string)
    | GlassHeader(name: string, headline: Option<string>, contact: Option<ContactLine>,
                  summary: string, links: seq<Anchor>)
    | ClassicHeader(name: string, headline: Option<string>, location: Option<string>,
                    rows: seq<Row>, summary: string)

  datatype Page = Page(header: Header, sections: Sections)

  /** `s ? <element>{s}</element> : null`. */
  function IfPresent(s: string): (r: Option<string>)
    ensures r.Some? <==> s != ""
    ensures r.Some? ==> r.value == s
  {
    if s != "" then Some(s) else None
  }

  /** `ex.location ? ` • ${ex.location}` : ""`: an absent and an empty location both add nothing. */
  function LocationSuffix(location: Option<string>): (r: string)
    ensures r == "" <==> location.None? || location.value == ""
    ensures r != "" ==> r == LocationSeparator + location.value
  {
    match location
    case Some(l) => if l != "" then LocationSeparator + l else ""
    case None => ""
  }

  /** `notes ? <div>{notes}</div> : null`. */
  function OptionalText(s: Option<string>): (r: Option<string>)
    ensures r.Some? <==> s.Some? && s.value != ""
    ensures r.Some? ==> r.value == s.value
  {
    match s
    case Some(t) => IfPresent(t)
    case None => None
  }

  // ---------------------------------------------------------------------
  // The section policy, stated declaratively.

  /** `shown` is `xs` cut to `cap`: hidden when `xs` is empty, otherwise its
      first min(cap, |xs|) items in order. */
  ghost predicate CappedPrefix<T>(xs: seq<T>, shown: Option<seq<T>>, cap: nat) {
    && (shown.None? <==> xs == [])
    && (shown.Some? ==> |shown.value| == Min(cap, |xs|) && shown.value <= xs)
  }

  /** `shown` is `s`, or `placeholder` when `s` is empty. */
  ghost predicate Placeheld(s: string, shown: string, placeholder: string) {
    (s != "" ==> shown == s) && (s == "" ==> shown == placeholder)
  }

  /** The displayed date range starts with `start` and adds " — end" exactly when `end` is set. */
  ghost predicate ShowsRange(start: string, end: string, shown: string) {
    && StartsWith(shown, start)
    && (end == "" ==> shown == start)
    && (end != "" ==> shown == start + DateSeparator + end)
  }

  ghost predicate ShowsProject(pr: Project, c: ProjectCard, glyph: string) {
    && Placeheld(pr.name, c.title, "Untitled project")
    && (c.link.Some? <==> pr.link != "")
    && (c.link.Some? ==> c.link.value == Anchor(glyph, pr.link, true))
    && (c.description.Some? <==> pr.description != "")
    && (c.description.Some? ==> c.description.value == pr.description)
    && CappedPrefix(pr.highlights, c.highlights, ProjectHighlightCap)
    && CappedPrefix(pr.tech, c.tech, TechCap)
  }

  ghost predicate ShowsExperience(ex: Experience, c: ExperienceCard) {
    && Placeheld(ex.role, c.role, "Role")
    && ShowsRange(ex.start, ex.end, c.dates)
    && (ex.company != "" ==> c.company == ex.company + LocationSuffix(ex.location))
    && (ex.company == "" ==> c.company == "Company" + LocationSuffix(ex.location))
    && CappedPrefix(ex.highlights, c.highlights, ExperienceHighlightCap)
  }

  ghost predicate ShowsEducation(ed: Education, c: EducationCard) {
    && Placeheld(ed.school, c.school, "School")
    && Placeheld(ed.degree, c.degree, "Degree")
    && ShowsRange(ed.start, ed.end, c.dates)
    && (c.notes.Some? <==> ed.notes.Some? && ed.notes.value != "")
    && (c.notes.Some? ==> c.notes.value == ed.notes.value)
  }

  /** Every section is hidden exactly when its collection is empty; a shown
      section lists every entry in order (skills cut to the cap), and each
      card follows the placeholder, cap and date rules. */
  ghost predicate SectionPolicy(d: Draft, s: Sections, glyph: string) {
    && (s.projects.None? <==> d.projects == [])
    && (s.projects.Some? ==>
          && |s.projects.value| == |d.projects|
          && forall i :: 0 <= i < |d.projects| ==> ShowsProject(d.projects[i], s.projects.value[i], glyph))
    && (s.experience.None? <==> d.experience == [])
    && (s.experience.Some? ==>
          && |s.experience.value| == |d.experience|
          && forall i :: 0 <= i < |d.experience| ==> ShowsExperience(d.experience[i], s.experience.value[i]))
    && CappedPrefix(d.skills, s.skills, SkillCap)
    && (s.education.None? <==> d.education == [])
    && (s.education.Some? ==>
          && |s.education.value| == |d.education|
          && forall i :: 0 <= i < |d.education| ==> ShowsEducation(d.education[i], s.education.value[i]))
  }

  // ---------------------------------------------------------------------
  // The projection itself.

  /** One project card; `glyph` is the text of the project's link. */
  function ProjectCardOf(pr: Project, glyph: string): (c: ProjectCard)
    ensures ShowsProject(pr, c, glyph)
    ensures c.title != ""
  {
    ProjectCard(
      OrElse(pr.name, "Untitled project"),
      if pr.link != "" then Some(Anchor(glyph, pr.link, true)) else None,
      IfPresent(pr.description),
      Capped(pr.highlights, ProjectHighlightCap),
      Capped(pr.tech, TechCap))
  }

  function ExperienceCardOf(ex: Experience): (c: ExperienceCard)
    ensures ShowsExperience(ex, c)
    ensures c.role != "" && c.company != ""
  {
    ExperienceCard(
      OrElse(ex.role, "Role"),
      DateRange(ex.start, ex.end),
      OrElse(ex.company, "Company") + LocationSuffix(ex.location),
      Capped(ex.highlights, ExperienceHighlightCap))
  }

  function EducationCardOf(ed: Education): (c: EducationCard)
    ensures ShowsEducation(ed, c)
    ensures c.school != "" && c.degree != ""
  {
    EducationCard(
      OrElse(ed.school, "School"),
      OrElse(ed.degree, "Degree"),
      DateRange(ed.start, ed.end),
      OptionalText(ed.notes))
  }

  /** The four sections of a template page. */
  function SectionsOf(d: Draft, glyph: string): (s: Sections)
    ensures SectionPolicy(d, s, glyph)
  {
    Sections(
      if |d.projects| == 0 then None
      else Some(seq(|d.projects|, i requires 0 <= i < |d.projects| => ProjectCardOf(d.projects[i], glyph))),
      if |d.experience| == 0 then None
      else Some(seq(|d.experience|, i requires 0 <= i < |d.experience| => ExperienceCardOf(d.experience[i]))),
      Capped(d.skills, SkillCap),
      if |d.education| == 0 then None
      else Some(seq(|d.education|, i requires 0 <= i < |d.education| => EducationCardOf(d.education[i]))))
  }

  /** A shown section is never an empty shell. */
  lemma NoEmptyShells(d: Draft, s: Sections, glyph: string)
    requires SectionPolicy(d, s, glyph)
    ensures s.projects.Some? ==> s.projects.value != []
    ensures s.experience.Some? ==> s.experience.value != []
    ensures s.skills.Some? ==> s.skills.value != []
    ensures s.education.Some? ==> s.education.value != []
  {
  }

  /** A project with seven highlights shows exactly its first four. */
  lemma SevenHighlightsShowFour(pr: Project, glyph: string)
    requires |pr.highlights| == 7
    ensures ProjectCardOf(pr, glyph).highlights == Some(pr.highlights[..4])
  {
    var h := ProjectCardOf(pr, glyph).highlights;
    assert |h.value| == 4 && h.value <= pr.highlights;
  }
}
