/** The "minimal" template: a header with contact buttons, a sticky in-page
    navigation bar, and the four sections. */
module MinimalPage {
  import opened Wrappers
  import opened Text
  import opened Lists
  import opened DraftTypes
  import opened Links
  import opened Display

  const MinimalOrder: seq<Channel> := [Website, GitHub, LinkedIn, Email, Phone]
  const NamePlaceholder: string := "Your Name"
  const SummaryPlaceholder: string := "Add a short summary to introduce yourself."
  const LinkGlyph: string := "↗"

  /** The header's contact buttons, before rendering. */
  function MinimalLinks(p: Profile): (r: seq<Link>)
    ensures |r| <= 5
  {
    BuildLinks(p, MinimalOrder)
  }

  /** One entry per filled-in field among website, GitHub, LinkedIn, email
      and phone, in that order and with no gaps; email and phone targets get
      their protocol prefix, the phone number loses its whitespace. */
  lemma MinimalLinksShape(p: Profile)
    ensures MinimalLinks(p) ==
      When(p.website != "", Link("Website", p.website))
      + When(p.github != "", Link("GitHub", p.github))
      + When(p.linkedin != "", Link("LinkedIn", p.linkedin))
      + When(p.email != "", Link("Email", "mailto:" + p.email))
      + When(p.phone != "", Link("Call", "tel:" + StripWs(p.phone)))
  {
    BuildLinksFive(p, Website, GitHub, LinkedIn, Email, Phone);
  }

  /** A profile whose only contact is an email gets exactly one link, to
      `mailto:` and the address. */
  lemma EmailOnlyExample(p: Profile)
    requires p.email == "a@b.com"
    requires p.website == "" && p.github == "" && p.linkedin == "" && p.phone == ""
    ensures MinimalLinks(p) == [Link("Email", "mailto:a@b.com")]
  {
    MinimalLinksShape(p);
    var target := "mailto:" + p.email;
    assert target == "mailto:a@b.com" by {
      assert forall i :: 0 <= i < 14 ==> target[i] == "mailto:a@b.com"[i];
    }
    assert MinimalLinks(p) == [] + [] + [] + [Link("Email", target)] + [];
  }

  /** A profile whose only contact is a spaced phone number gets one call
      link whose target has every space removed. */
  lemma PhoneOnlyExample(p: Profile)
    requires p.phone == "+1 555 000 1111"
    requires p.website == "" && p.github == "" && p.linkedin == "" && p.email == ""
    ensures MinimalLinks(p) == [Link("Call", "tel:+15550001111")]
  {
    MinimalLinksShape(p);
    PhoneTargetExample(p.phone);
    assert MinimalLinks(p) == [] + [] + [] + [] + [Link("Call", "tel:" + StripWs(p.phone))];
  }

  lemma PhoneTargetExample(phone: string)
    requires phone == "+1 555 000 1111"
    ensures "tel:" + StripWs(phone) == "tel:+15550001111"
  {
    StripWsPhoneExample(phone);
    var joined := "tel:" + "+15550001111";
    assert joined == "tel:+15550001111" by {
      assert forall i :: 0 <= i < 16 ==> joined[i] == "tel:+15550001111"[i];
    }
  }

  /** `{ id, label, show }` kept by `.filter((x) => x.show)`. */
  function NavEntry(id: string, title: string, show: bool): (r: Option<NavItem>)
    ensures r.Some? <==> show
  {
    if show then Some(NavItem(id, title)) else None
  }

  /** The in-page navigation entries. */
  function Nav(d: Draft): (r: seq<NavItem>)
    ensures |r| <= 4
  {
    Present([
      NavEntry("projects", "Projects", |d.projects| > 0),
      NavEntry("experience", "Experience", |d.experience| > 0),
      NavEntry("skills", "Skills", |d.skills| > 0),
      NavEntry("education", "Education", |d.education| > 0)])
  }

  /** Exactly the sections with a nonempty collection, in page order. */
  lemma NavShape(d: Draft)
    ensures Nav(d) ==
      When(d.projects != [], NavItem("projects", "Projects"))
      + When(d.experience != [], NavItem("experience", "Experience"))
      + When(d.skills != [], NavItem("skills", "Skills"))
      + When(d.education != [], NavItem("education", "Education"))
  {
    var a := NavEntry("projects", "Projects", |d.projects| > 0);
    var b := NavEntry("experience", "Experience", |d.experience| > 0);
    var c := NavEntry("skills", "Skills", |d.skills| > 0);
    var e := NavEntry("education", "Education", |d.education| > 0);
    assert Nav(d) == Present([a, b, c, e]);
    PresentFour(a, b, c, e);
    PresentOne(a);
    PresentOne(b);
    PresentOne(c);
    PresentOne(e);
  }

  function RenderMinimal(d: Draft): (pg: Page)
    ensures pg.header.MinimalHeader?
    ensures pg.header.name != ""
  {
    var p := d.profile;
    var nav := Nav(d);
    Page(
      MinimalHeader(
        OrElse(p.fullName, NamePlaceholder),
        IfPresent(p.headline),
        IfPresent(p.location),
        Anchors(MinimalLinks(p)),
        OrElse(p.summary, SummaryPlaceholder),
        if |nav| > 0 then Some(nav) else None),
      SectionsOf(d, LinkGlyph))
  }

  /** Every section of the page follows the shared policy: hidden exactly
      when its collection is empty, every entry in order, placeholders for
      empty fields, date ranges, and the 4/10/6/60 caps as prefixes. */
  lemma MinimalSections(d: Draft)
    ensures SectionPolicy(d, RenderMinimal(d).sections, LinkGlyph)
  {
  }

  /** The header shows the name and summary or their placeholders, the
      headline and location only when set, and the contact links in order. */
  lemma MinimalHeaderPolicy(d: Draft)
    ensures var h := RenderMinimal(d).header;
      && Placeheld(d.profile.fullName, h.name, "Your Name")
      && Placeheld(d.profile.summary, h.summary, "Add a short summary to introduce yourself.")
      && (h.headline.Some? <==> d.profile.headline != "")
      && (h.location.Some? <==> d.profile.location != "")
      && |h.links| == |MinimalLinks(d.profile)|
      && forall i :: 0 <= i < |h.links| ==>
           h.links[i].caption == MinimalLinks(d.profile)[i].caption
           && h.links[i].href == MinimalLinks(d.profile)[i].href
  {
  }

  /** The email and call buttons stay in the tab; the others open a new tab
      unless their value starts with `mailto:` or `tel:`. */
  lemma MinimalLinkTabs(d: Draft)
    ensures forall a :: a in RenderMinimal(d).header.links ==>
      (a.newTab <==> !StartsWith(a.href, "mailto:") && !StartsWith(a.href, "tel:"))
      && (a.caption in {"Email", "Call"} ==> !a.newTab)
  {
    var links := MinimalLinks(d.profile);
    var anchors := RenderMinimal(d).header.links;
    forall a | a in anchors
      ensures (a.newTab <==> !StartsWith(a.href, "mailto:") && !StartsWith(a.href, "tel:"))
      ensures a.caption in {"Email", "Call"} ==> !a.newTab
    {
      var i :| 0 <= i < |anchors| && anchors[i] == a;
      BuiltLinkTabs(d.profile, MinimalOrder, links[i]);
    }
  }

  /** The navigation bar lists a section exactly when the page shows it, and
      the bar itself is left out exactly when no section is shown. */
  lemma NavMatchesSections(d: Draft)
    ensures var pg := RenderMinimal(d);
      && (NavItem("projects", "Projects") in Nav(d) <==> pg.sections.projects.Some?)
      && (NavItem("experience", "Experience") in Nav(d) <==> pg.sections.experience.Some?)
      && (NavItem("skills", "Skills") in Nav(d) <==> pg.sections.skills.Some?)
      && (NavItem("education", "Education") in Nav(d) <==> pg.sections.education.Some?)
      && (pg.header.nav.None? <==>
            pg.sections.projects.None? && pg.sections.experience.None?
            && pg.sections.skills.None? && pg.sections.education.None?)
  {
    NavShape(d);
  }
}
