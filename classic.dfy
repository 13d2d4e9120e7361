/** The "classic" template: a header card with captioned contact rows and
    the four sections. */
module ClassicPage {
  import opened Wrappers
  import opened Text
  import opened Lists
  import opened DraftTypes
  import opened Links
  import opened Display

  const NamePlaceholder: string := "Your Name"
  const SummaryPlaceholder: string := "Add a summary to make this page feel like a portfolio homepage."
  const LinkGlyph: string := "View ↗"

  /** The `LinkRow` component: nothing for an empty value; otherwise the
      caption and the raw value, the value wrapped in a new-tab link when
      there is a target. */
  function LinkRow(caption: string, value: string, href: Option<string>): (r: Option<Row>)
    ensures r.None? <==> value == ""
    ensures r.Some? ==> r.value.caption == caption && r.value.text == value
    ensures r.Some? ==> (r.value.link.Some? <==> href.Some? && href.value != "")
    ensures r.Some? && r.value.link.Some? ==> r.value.link.value == Anchor(value, href.value, true)
  {
    if value == "" then None
    else
      var link := if href.Some? && href.value != "" then Some(Anchor(value, href.value, true)) else None;
      Some(Row(caption, value, link))
  }

  /** `value ? target : undefined` and `value || undefined`. */
  function TargetIfSet(value: string, target: string): (r: Option<string>)
    ensures r.Some? <==> value != ""
    ensures r.Some? ==> r.value == target
  {
    if value != "" then Some(target) else None
  }

  /** The contact rows, in the order email, phone, website, GitHub, LinkedIn. */
  function ContactRows(p: Profile): (r: seq<Row>)
    ensures |r| <= 5
  {
    Present([
      LinkRow("Email", p.email, TargetIfSet(p.email, Href(p, Email))),
      LinkRow("Phone", p.phone, TargetIfSet(p.phone, Href(p, Phone))),
      LinkRow("Website", p.website, TargetIfSet(p.website, p.website)),
      LinkRow("GitHub", p.github, TargetIfSet(p.github, p.github)),
      LinkRow("LinkedIn", p.linkedin, TargetIfSet(p.linkedin, p.linkedin))])
  }

  /** A row whose target is set exactly when its value is. */
  lemma RowWhenSet(caption: string, value: string, target: string)
    requires target != ""
    ensures Present([LinkRow(caption, value, TargetIfSet(value, target))])
         == When(value != "", Row(caption, value, Some(Anchor(value, target, true))))
  {
    PresentOne(LinkRow(caption, value, TargetIfSet(value, target)));
  }

  /** One row per filled-in field in the fixed order; each shows the raw
      value and links it: `mailto:` for email, `tel:` without whitespace for
      phone, the value itself otherwise, always in a new tab. */
  lemma ContactRowsShape(p: Profile)
    ensures ContactRows(p) ==
      When(p.email != "", Row("Email", p.email, Some(Anchor(p.email, "mailto:" + p.email, true))))
      + When(p.phone != "", Row("Phone", p.phone, Some(Anchor(p.phone, "tel:" + StripWs(p.phone), true))))
      + When(p.website != "", Row("Website", p.website, Some(Anchor(p.website, p.website, true))))
      + When(p.github != "", Row("GitHub", p.github, Some(Anchor(p.github, p.github, true))))
      + When(p.linkedin != "", Row("LinkedIn", p.linkedin, Some(Anchor(p.linkedin, p.linkedin, true))))
  {
    var mail := "mailto:" + p.email;
    var tel := "tel:" + StripWs(p.phone);
    assert Href(p, Email) == mail && Href(p, Phone) == tel;
    var a := LinkRow("Email", p.email, TargetIfSet(p.email, mail));
    var b := LinkRow("Phone", p.phone, TargetIfSet(p.phone, tel));
    var c := LinkRow("Website", p.website, TargetIfSet(p.website, p.website));
    var g := LinkRow("GitHub", p.github, TargetIfSet(p.github, p.github));
    var l := LinkRow("LinkedIn", p.linkedin, TargetIfSet(p.linkedin, p.linkedin));
    assert ContactRows(p) == Present([a, b, c, g, l]);
    PresentFive(a, b, c, g, l);
    RowWhenSet("Email", p.email, mail);
    RowWhenSet("Phone", p.phone, tel);
    if p.website != "" { RowWhenSet("Website", p.website, p.website); } else { PresentOne(c); }
    if p.github != "" { RowWhenSet("GitHub", p.github, p.github); } else { PresentOne(g); }
    if p.linkedin != "" { RowWhenSet("LinkedIn", p.linkedin, p.linkedin); } else { PresentOne(l); }
  }

  /** Every contact row is a link that opens a new tab, `mailto:` and
      `tel:` targets included, and its text is the raw field value. */
  lemma ClassicRowsOpenNewTab(p: Profile)
    ensures forall r :: r in ContactRows(p) ==> r.link.Some? && r.link.value.newTab && r.link.value.caption == r.text
  {
    ContactRowsShape(p);
  }

  function RenderClassic(d: Draft): (pg: Page)
    ensures pg.header.ClassicHeader?
    ensures pg.header.name != ""
  {
    var p := d.profile;
    Page(
      ClassicHeader(
        OrElse(p.fullName, NamePlaceholder),
        IfPresent(p.headline),
        IfPresent(p.location),
        ContactRows(p),
        OrElse(p.summary, SummaryPlaceholder)),
      SectionsOf(d, LinkGlyph))
  }

  /** Every section of the page follows the shared policy: hidden exactly
      when its collection is empty, every entry in order, placeholders for
      empty fields, date ranges, and the 4/10/6/60 caps as prefixes. */
  lemma ClassicSections(d: Draft)
    ensures SectionPolicy(d, RenderClassic(d).sections, LinkGlyph)
  {
  }

  lemma ClassicHeaderPolicy(d: Draft)
    ensures var h := RenderClassic(d).header;
      && Placeheld(d.profile.fullName, h.name, "Your Name")
      && Placeheld(d.profile.summary, h.summary, SummaryPlaceholder)
      && (h.headline.Some? <==> d.profile.headline != "")
      && (h.location.Some? <==> d.profile.location != "")
  {
  }
}
