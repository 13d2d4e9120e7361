/** The "glass" template: a hero card with a location/email line, the
    summary or an invitation to write one, contact buttons, and the four
    sections. Unlike the other templates it reads the draft as given,
    without normalising it first. */
module GlassPage {
  import opened Wrappers
  import opened Text
  import opened Lists
  import opened DraftTypes
  import opened Links
  import opened Display

  const GlassOrder: seq<Channel> := [Website, GitHub, LinkedIn, Email, Phone]
  const NamePlaceholder: string := "Your Name"
  const SummaryPlaceholder: string := "Add a summary to make this portfolio feel personal and website-like."
  const LinkGlyph: string := "↗"

  function GlassLinks(p: Profile): (r: seq<Link>)
    ensures |r| <= 5
  {
    BuildLinks(p, GlassOrder)
  }

  /** One entry per filled-in field among website, GitHub, LinkedIn, email
      and phone, in that order, formatted as in the minimal template. */
  lemma GlassLinksShape(p: Profile)
    ensures GlassLinks(p) ==
      When(p.website != "", Link("Website", p.website))
      + When(p.github != "", Link("GitHub", p.github))
      + When(p.linkedin != "", Link("LinkedIn", p.linkedin))
      + When(p.email != "", Link("Email", "mailto:" + p.email))
      + When(p.phone != "", Link("Call", "tel:" + StripWs(p.phone)))
  {
    BuildLinksFive(p, Website, GitHub, LinkedIn, Email, Phone);
  }

  /** `(location || email) ? <div>{location}{location && email ? "•" : null}{email}</div> : null`. */
  function ContactLineOf(p: Profile): (r: Option<ContactLine>)
    ensures r.Some? <==> p.location != "" || p.email != ""
    ensures r.Some? ==> (r.value.separator <==> p.location != "" && p.email != "")
    ensures r.Some? ==> (r.value.location.Some? <==> p.location != "")
    ensures r.Some? ==> (r.value.email.Some? <==> p.email != "")
    ensures r.Some? && r.value.location.Some? ==> r.value.location.value == p.location
    ensures r.Some? && r.value.email.Some? ==> r.value.email.value == p.email
  {
    if p.location != "" || p.email != "" then
      Some(ContactLine(IfPresent(p.location), p.location != "" && p.email != "", IfPresent(p.email)))
    else None
  }

  function RenderGlass(d: Draft): (pg: Page)
    ensures pg.header.GlassHeader?
    ensures pg.header.name != ""
  {
    var p := d.profile;
    Page(
      GlassHeader(
        OrElse(p.fullName, NamePlaceholder),
        IfPresent(p.headline),
        ContactLineOf(p),
        OrElse(p.summary, SummaryPlaceholder),
        Anchors(GlassLinks(p))),
      SectionsOf(d, LinkGlyph))
  }

  /** Every section of the page follows the shared policy: hidden exactly
      when its collection is empty, every entry in order, placeholders for
      empty fields, date ranges, and the 4/10/6/60 caps as prefixes. */
  lemma GlassSections(d: Draft)
    ensures SectionPolicy(d, RenderGlass(d).sections, LinkGlyph)
  {
  }

  /** The summary is shown verbatim when set and replaced by the fixed
      invitation otherwise; the separator appears only between a location
      and an email. */
  lemma GlassHeaderPolicy(d: Draft)
    ensures var h := RenderGlass(d).header;
      && Placeheld(d.profile.fullName, h.name, "Your Name")
      && Placeheld(d.profile.summary, h.summary, SummaryPlaceholder)
      && (h.contact.Some? <==> d.profile.location != "" || d.profile.email != "")
      && (h.contact.Some? ==> (h.contact.value.separator <==> d.profile.location != "" && d.profile.email != ""))
  {
  }

  /** A button opens a new tab exactly when its target starts with neither
      `mailto:` nor `tel:`; so the email and call buttons never do. */
  lemma GlassLinkTabs(d: Draft)
    ensures forall a :: a in RenderGlass(d).header.links ==>
      (a.newTab <==> !StartsWith(a.href, "mailto:") && !StartsWith(a.href, "tel:"))
      && (a.caption in {"Email", "Call"} ==> !a.newTab)
  {
    var links := GlassLinks(d.profile);
    var anchors := RenderGlass(d).header.links;
    forall a | a in anchors
      ensures (a.newTab <==> !StartsWith(a.href, "mailto:") && !StartsWith(a.href, "tel:"))
      ensures a.caption in {"Email", "Call"} ==> !a.newTab
    {
      var i :| 0 <= i < |anchors| && anchors[i] == a;
      BuiltLinkTabs(d.profile, GlassOrder, links[i]);
    }
  }
}
