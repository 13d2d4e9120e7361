/** The preview page: it looks up the draft's declared template in a fixed
    table, falls back to the glass template when the lookup finds nothing,
    and renders the draft with the template it found. The lookup is a
    bracket access on a plain object, so it is modelled twice: as written
    (`SelectAsWritten`, which also finds members inherited from
    `Object.prototype`) and as intended (`Select`, which the page uses). */
module Preview {
  import opened Wrappers
  import opened DraftTypes
  import opened Display
  import opened MinimalPage
  import opened NeoPage
  import opened GlassPage
  import opened ClassicPage

  /** The four template components. */
  datatype Renderer = TemplateMinimal | TemplateNeo | TemplateClassic | GlassTemplate

  /** The renderer each identifier is meant to reach. */
  function RendererFor(t: TemplateId): Renderer {
    match t
    case Minimal() => TemplateMinimal
    case Neo() => TemplateNeo
    case Classic() => TemplateClassic
    case Glass() => GlassTemplate
  }

  /** The lookup table, keyed by the identifiers as written in a draft. */
  const Registry: map<string, Renderer> := map[
    "minimal" := TemplateMinimal,
    "neo" := TemplateNeo,
    "classic" := TemplateClassic,
    "glass" := GlassTemplate]

  /** The intended `map[id] ?? GlassTemplate`, reading only the table's own
      keys: every identifier reaches its own renderer, and every string
      that is not one of the four, the empty one included, the glass one. */
  function Select(id: string): (r: Renderer)
    ensures forall t: TemplateId :: t.Name() == id ==> r == RendererFor(t)
    ensures ParseTemplateId(id).None? ==> r == GlassTemplate
  {
    if id in Registry then Registry[id] else GlassTemplate
  }

  /** Names a plain object literal inherits from `Object.prototype`. A
      bracket lookup with one of them finds the inherited member, which is
      neither `null` nor `undefined`, instead of nothing. */
  const InheritedKeys: set<string> := {
    "constructor", "__proto__", "toString", "toLocaleString", "valueOf",
    "hasOwnProperty", "isPrototypeOf", "propertyIsEnumerable",
    "__defineGetter__", "__defineSetter__", "__lookupGetter__", "__lookupSetter__"}

  /** What a bracket lookup on the table yields when it yields something:
      one of its own entries, or an inherited member, which is not a
      template component. */
  datatype Found = Own(renderer: Renderer) | Inherited(member: string)

  /** `map[id]` on the object literal: own keys first, then the prototype
      chain, and `undefined` (here `None`) when neither has the key. */
  function Lookup(id: string): Option<Found> {
    if id in Registry then Some(Own(Registry[id]))
    else if id in InheritedKeys then Some(Inherited(id))
    else None
  }

  /** `map[draft.templateId] ?? GlassTemplate` as written. The four
      identifiers reach their own renderers; an inherited name reaches the
      inherited member, so `??` does not fall back; every other string
      gets the same renderer as the intended `Select`. */
  function SelectAsWritten(id: string): (r: Found)
    ensures forall t: TemplateId :: t.Name() == id ==> r == Own(RendererFor(t))
    ensures r.Inherited? <==> id in InheritedKeys
    ensures r.Own? ==> r.renderer == Select(id)
  {
    match Lookup(id)
    case Some(f) => f
    case None => Own(GlassTemplate)
  }

  /** The discrepancy: for an inherited name the intended selector falls
      back to glass, while the lookup as written returns a member that is
      not a template at all. */
  lemma InheritedKeysBypassFallback(id: string)
    requires id in InheritedKeys
    ensures Select(id) == GlassTemplate
    ensures SelectAsWritten(id) == Inherited(id)
    ensures SelectAsWritten(id) != Own(Select(id))
  {
  }

  /** The draft identifier "constructor" shows it concretely. */
  lemma ConstructorBypassesFallback()
    ensures Select("constructor") == GlassTemplate
    ensures SelectAsWritten("constructor") == Inherited("constructor")
  {
  }

  /** Away from the inherited names the lookup as written and the intended
      one agree. */
  lemma AsWrittenAgreesElsewhere(id: string)
    requires id !in InheritedKeys
    ensures SelectAsWritten(id) == Own(Select(id))
  {
  }

  /** The table holds exactly the four identifiers. */
  lemma RegistryKeys()
    ensures Registry.Keys == set t: TemplateId | true :: t.Name()
  {
    var names := set t: TemplateId | true :: t.Name();
    assert TemplateId.Minimal.Name() in names && TemplateId.Neo.Name() in names;
    assert TemplateId.Classic.Name() in names && TemplateId.Glass.Name() in names;
  }

  /** Different identifiers reach different renderers. */
  lemma SelectDistinct(s: TemplateId, t: TemplateId)
    requires s != t
    ensures Select(s.Name()) != Select(t.Name())
  {
  }

  /** Any string the table lacks selects the same renderer as "glass"
      under the intended lookup. */
  lemma FallbackIsGlass(id: string)
    requires id !in Registry
    ensures Select(id) == Select("glass")
  {
  }

  /** An unknown identifier and the empty one both fall back to glass. */
  lemma UnknownIdsFallBack()
    ensures Select("unknown-id") == Select("glass")
    ensures Select("") == Select("glass")
  {
  }

  function Render(r: Renderer, d: Draft): Page {
    match r
    case TemplateMinimal => RenderMinimal(d)
    case TemplateNeo => RenderNeo(d)
    case TemplateClassic => RenderClassic(d)
    case GlassTemplate => RenderGlass(d)
  }

  /** The preview page under the intended lookup: the selected template
      gets the loaded draft as it is. */
  function PreviewPage(d: Draft): (pg: Page)
    ensures ParseTemplateId(d.templateId).Some? ==> pg == Render(RendererFor(ParseTemplateId(d.templateId).value), d)
    ensures ParseTemplateId(d.templateId).None? ==> pg == RenderGlass(d)
  {
    Render(Select(d.templateId), d)
  }

  /** Each identifier reaches its own template, and every other string the
      glass one, under the intended lookup. */
  lemma PreviewDispatch(d: Draft)
    ensures d.templateId == "minimal" ==> PreviewPage(d) == RenderMinimal(d)
    ensures d.templateId == "neo" ==> PreviewPage(d) == RenderNeo(d)
    ensures d.templateId == "classic" ==> PreviewPage(d) == RenderClassic(d)
    ensures d.templateId !in {"minimal", "neo", "classic"} ==> PreviewPage(d) == RenderGlass(d)
  {
    var r := Select(d.templateId);
    assert PreviewPage(d) == Render(r, d);
    if d.templateId == "minimal" {
      assert r == TemplateMinimal;
    } else if d.templateId == "neo" {
      assert r == TemplateNeo;
    } else if d.templateId == "classic" {
      assert r == TemplateClassic;
    } else {
      assert r == GlassTemplate;
    }
  }

  /** Whatever template is chosen, every section follows the shared policy
      and hides exactly the empty collections. */
  lemma EveryTemplateHidesEmptySections(r: Renderer, d: Draft)
    ensures var s := Render(r, d).sections;
      && (s.projects.None? <==> d.projects == [])
      && (s.experience.None? <==> d.experience == [])
      && (s.skills.None? <==> d.skills == [])
      && (s.education.None? <==> d.education == [])
  {
    match r
    case TemplateMinimal => MinimalSections(d);
    case TemplateNeo => NeoSections(d);
    case TemplateClassic => ClassicSections(d);
    case GlassTemplate => GlassSections(d);
  }

  /** No template reads the timestamp, the free-text responsibilities or
      the declared template of the draft it renders. */
  lemma RenderIgnoresPassThrough(r: Renderer, d: Draft, updatedAt: int, responsibilities: string, templateId: string)
    ensures Render(r, d) == Render(r, d.(updatedAt := updatedAt, responsibilities := responsibilities, templateId := templateId))
  {
  }
}
