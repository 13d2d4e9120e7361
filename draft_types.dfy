/**
 * The portfolio draft: the profile, the experience, project and education
 * entries, the skills, and the declared template.
 */
module DraftTypes {
  import opened Wrappers

  /** The closed set of template identifiers. */
  datatype TemplateId = Minimal | Glass | Neo | Classic {
    /** The identifier as it is written in a draft. */
    function Name(): string {
      match this
      case Minimal => "minimal"
      case Glass => "glass"
      case Neo => "neo"
      case Classic => "classic"
    }
  }

  /** Reads an identifier back; every other string names no template. */
  function ParseTemplateId(s: string): (r: Option<TemplateId>)
    ensures r.Some? ==> r.value.Name() == s
    ensures forall t: TemplateId :: t.Name() == s ==> r == Some(t)
  {
    if s == "minimal" then Some(Minimal)
    else if s == "glass" then Some(Glass)
    else if s == "neo" then Some(Neo)
    else if s == "classic" then Some(Classic)
    else None
  }

  /** Distinct identifiers have distinct names, so parsing a name gives back its identifier. */
  lemma TemplateIdRoundTrip(t: TemplateId)
    ensures ParseTemplateId(t.Name()) == Some(t)
  {
  }

  /** Every profile field is a string that may be empty. */
  datatype Profile = Profile(
    fullName: string,
    headline: string,
    location: string,
    email: string,
    phone: string,
    website: string,
    github: string,
    linkedin: string,
    summary: string)

  /** `location` is optional; an empty `end` means the position is ongoing. */
  datatype Experience = Experience(
    company: string,
    role: string,
    start: string,
    end: string,
    location: Option<string>,
    highlights: seq<string>)

  datatype Project = Project(
    name: string,
    link: string,
    tech: seq<string>,
    description: string,
    highlights: seq<string>)

  /** `notes` is optional. */
  datatype Education = Education(
    school: string,
    degree: string,
    start: string,
    end: string,
    notes: Option<string>)

  /** The whole draft. `templateId` is typed as a `TemplateId` name, but a
      loaded draft may carry any string there, so it is kept raw and only
      resolved when a template is selected. `updatedAt` and
      `responsibilities` are carried and never read by a template. */
  datatype Draft = Draft(
    updatedAt: int,
    responsibilities: string,
    templateId: string,
    profile: Profile,
    experience: seq<Experience>,
    projects: seq<Project>,
    skills: seq<string>,
    education: seq<Education>)
}
