/** The "neo" template: a hero card with location/email pills, a row of
    call-to-action buttons led by a primary one, and the four sections. */
module NeoPage {
  import opened Wrappers
  import opened Text
  import opened Lists
  import opened DraftTypes
  import opened Links
  import opened Display

  /** Neo offers no phone button. */
  const NeoOrder: seq<Channel> := [Website, GitHub, LinkedIn, Email]
  const NamePlaceholder: string := "Your Name"
  const SummaryPlaceholder: string := "Add a summary. This area is meant to feel like a creator homepage intro."
  const LinkGlyph: string := "↗"

  function NeoLinks(p: Profile): (r: seq<Link>)
    ensures |r| <= 4
    ensures forall l :: l in r ==> l.caption != "Call" && l.caption != "Phone"
  {
    var r := BuildLinks(p, NeoOrder);
    forall l | l in r ensures l.caption != "Call" && l.caption != "Phone" {
      BuildLinksSound(p, NeoOrder, l);
    }
    r
  }

  /** One entry per filled-in field among website, GitHub, LinkedIn and
      email, in that order, with no gaps. */
  lemma NeoLinksShape(p: Profile)
    ensures NeoLinks(p) ==
      When(p.website != "", Link("Website", p.website))
      + When(p.github != "", Link("GitHub", p.github))
      + When(p.linkedin != "", Link("LinkedIn", p.linkedin))
      + When(p.email != "", Link("Email", "mailto:" + p.email))
  {
    BuildLinksFour(p, Website, GitHub, LinkedIn, Email);
  }

  /** `links.length ? <CTA {...links[0]} primary />{links.slice(1).map(CTA)} : null`. */
  function CtaBlock(links: seq<Link>): (r: Option<seq<Cta>>)
    ensures r.None? <==> links == []
    ensures r.Some? ==> |r.value| == |links|
    ensures r.Some? ==> forall i :: 0 <= i < |links| ==>
      r.value[i].anchor == ExternalAnchor(links[i]) && (r.value[i].primary <==> i == 0)
  {
    if |links| == 0 then None
    else
      var rest := links[1..];
      Some([Cta(ExternalAnchor(links[0]), true)]
           + seq(|rest|, i requires 0 <= i < |rest| => Cta(ExternalAnchor(rest[i]), false)))
  }

  /** The pills under the headline: the location, then the email, each only when set. */
  function Pills(p: Profile): (r: seq<string>)
    ensures r == When(p.location != "", p.location) + When(p.email != "", p.email)
  {
    var xs := [IfPresent(p.location), IfPresent(p.email)];
    assert xs == [xs[0]] + [xs[1]];
    PresentAppend([xs[0]], [xs[1]]);
    PresentOne(xs[0]);
    PresentOne(xs[1]);
    Present(xs)
  }

  function RenderNeo(d: Draft): (pg: Page)
    ensures pg.header.NeoHeader?
    ensures pg.header.name != ""
  {
    var p := d.profile;
    Page(
      NeoHeader(
        OrElse(p.fullName, NamePlaceholder),
        IfPresent(p.headline),
        Pills(p),
        CtaBlock(NeoLinks(p)),
        OrElse(p.summary, SummaryPlaceholder)),
      SectionsOf(d, LinkGlyph))
  }

  /** Every section of the page follows the shared policy: hidden exactly
      when its collection is empty, every entry in order, placeholders for
      empty fields, date ranges, and the 4/10/6/60 caps as prefixes. */
  lemma NeoSections(d: Draft)
    ensures SectionPolicy(d, RenderNeo(d).sections, LinkGlyph)
  {
  }

  /** The first contact link is the primary button and the rest follow in
      order as plain buttons; with no links there is no button row. */
  lemma NeoCtaPolicy(d: Draft)
    ensures var h := RenderNeo(d).header; var links := NeoLinks(d.profile);
      && (h.ctas.None? <==> links == [])
      && (h.ctas.Some? ==>
            && |h.ctas.value| == |links|
            && h.ctas.value[0].primary
            && h.ctas.value[0].anchor.href == links[0].href
            && forall i :: 1 <= i < |links| ==>
                 !h.ctas.value[i].primary && h.ctas.value[i].anchor.href == links[i].href)
  {
  }

  /** A button opens a new tab exactly when its target starts with neither
      `mailto:` nor `tel:`; so the email button never does. */
  lemma NeoCtaTabs(d: Draft)
    ensures var h := RenderNeo(d).header;
      h.ctas.Some? ==> forall cta :: cta in h.ctas.value ==>
        && (cta.anchor.newTab <==> !StartsWith(cta.anchor.href, "mailto:") && !StartsWith(cta.anchor.href, "tel:"))
        && (cta.anchor.caption == "Email" ==> !cta.anchor.newTab)
  {
    var links := NeoLinks(d.profile);
    var h := RenderNeo(d).header;
    if h.ctas.Some? {
      forall cta | cta in h.ctas.value
        ensures cta.anchor.newTab <==> !StartsWith(cta.anchor.href, "mailto:") && !StartsWith(cta.anchor.href, "tel:")
        ensures cta.anchor.caption == "Email" ==> !cta.anchor.newTab
      {
        var i :| 0 <= i < |h.ctas.value| && h.ctas.value[i] == cta;
        BuiltLinkTabs(d.profile, NeoOrder, links[i]);
      }
    }
  }

  /** The name and summary fall back to placeholders, the headline shows
      only when set, and the pills are the location then the e-mail. */
  lemma NeoHeaderPolicy(d: Draft)
    ensures var h := RenderNeo(d).header;
      && Placeheld(d.profile.fullName, h.name, "Your Name")
      && Placeheld(d.profile.summary, h.summary, SummaryPlaceholder)
      && (h.headline.Some? <==> d.profile.headline != "")
      && h.pills == When(d.profile.location != "", d.profile.location) + When(d.profile.email != "", d.profile.email)
  {
  }
}
