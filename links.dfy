/**
 * Contact links: the fixed candidate list each template builds from the
 * profile, the targets it formats, and the rule that decides whether a
 * rendered link opens a new tab.
 */
module Links {
  import opened Wrappers
  import opened Text
  import opened Lists
  import opened DraftTypes

  /** The contact channels a profile can fill in. */
  datatype Channel = Website | GitHub | LinkedIn | Email | Phone

  /** A `{ label, href }` entry of a link list. */
  datatype Link = Link(caption: string, href: string)

  /** A rendered `<a>`: its text, its target and whether it carries
      `target="_blank"` (and, with it, `rel="noreferrer"`). */
  datatype Anchor = Anchor(caption: string, href: string, newTab: bool)

  function Value(p: Profile, c: Channel): string {
    match c
    case Website => p.website
    case GitHub => p.github
    case LinkedIn => p.linkedin
    case Email => p.email
    case Phone => p.phone
  }

  function Label(c: Channel): string {
    match c
    case Website => "Website"
    case GitHub => "GitHub"
    case LinkedIn => "LinkedIn"
    case Email => "Email"
    case Phone => "Call"
  }

  const MailScheme: string := "mailto:"
  const TelScheme: string := "tel:"

  /** The link target of a channel. */
  function Href(p: Profile, c: Channel): string {
    match c
    case Email => MailScheme + p.email
    case Phone => TelScheme + StripWs(p.phone)
    case _ => Value(p, c)
  }

  /** Targets: `mailto:` and the raw address for email, `tel:` and the
      number without any whitespace for phone, the value itself for the web
      channels. */
  lemma HrefFormat(p: Profile, c: Channel)
    ensures c == Email ==> StartsWith(Href(p, c), MailScheme) && Href(p, c)[|MailScheme|..] == p.email
    ensures c == Phone ==> StartsWith(Href(p, c), TelScheme) && NoWs(Href(p, c)[|TelScheme|..])
    ensures c == Phone ==> Href(p, c)[|TelScheme|..] == StripWs(p.phone)
    ensures c in {Website, GitHub, LinkedIn} ==> Href(p, c) == Value(p, c)
  {
  }

  function LinkTo(p: Profile, c: Channel): Link {
    Link(Label(c), Href(p, c))
  }

  /** One element of the candidate literal: `p.x ? { label, href } : null`. */
  function Candidate(p: Profile, c: Channel): (r: Option<Link>)
    ensures r.Some? <==> Value(p, c) != ""
    ensures r.Some? ==> r.value.caption == Label(c) && r.value.href == Href(p, c)
  {
    if Value(p, c) != "" then Some(LinkTo(p, c)) else None
  }

  /** `[candidates in order].filter(Boolean)`. */
  function BuildLinks(p: Profile, order: seq<Channel>): (r: seq<Link>)
    ensures |r| <= |order|
  {
    Present(seq(|order|, i requires 0 <= i < |order| => Candidate(p, order[i])))
  }

  /** The list for a longer order is the lists for its parts, one after the other. */
  lemma BuildLinksAppend(p: Profile, a: seq<Channel>, b: seq<Channel>)
    ensures BuildLinks(p, a + b) == BuildLinks(p, a) + BuildLinks(p, b)
  {
    var ca := seq(|a|, i requires 0 <= i < |a| => Candidate(p, a[i]));
    var cb := seq(|b|, i requires 0 <= i < |b| => Candidate(p, b[i]));
    var cab := seq(|a + b|, i requires 0 <= i < |a + b| => Candidate(p, (a + b)[i]));
    assert cab == ca + cb;
    PresentAppend(ca, cb);
  }

  /** A single channel gives its link when filled in and nothing otherwise. */
  lemma BuildLinksOne(p: Profile, c: Channel)
    ensures BuildLinks(p, [c]) == When(Value(p, c) != "", LinkTo(p, c))
  {
    var cs := seq(1, i requires 0 <= i < 1 => Candidate(p, [c][i]));
    assert cs == [Candidate(p, c)];
    PresentOne(Candidate(p, c));
  }

  /** Peeling the first channel off the order. */
  lemma BuildLinksCons(p: Profile, order: seq<Channel>)
    requires order != []
    ensures BuildLinks(p, order) == When(Value(p, order[0]) != "", LinkTo(p, order[0])) + BuildLinks(p, order[1..])
  {
    assert order == [order[0]] + order[1..];
    BuildLinksAppend(p, [order[0]], order[1..]);
    BuildLinksOne(p, order[0]);
  }

  /** A five-channel order, channel by channel. */
  lemma BuildLinksFive(p: Profile, a: Channel, b: Channel, c: Channel, d: Channel, e: Channel)
    ensures BuildLinks(p, [a, b, c, d, e]) ==
      When(Value(p, a) != "", LinkTo(p, a)) + When(Value(p, b) != "", LinkTo(p, b))
      + When(Value(p, c) != "", LinkTo(p, c)) + When(Value(p, d) != "", LinkTo(p, d))
      + When(Value(p, e) != "", LinkTo(p, e))
  {
    assert [a, b, c, d, e] == [a, b, c, d] + [e];
    BuildLinksAppend(p, [a, b, c, d], [e]);
    BuildLinksFour(p, a, b, c, d);
    BuildLinksOne(p, e);
  }

  /** A four-channel order, channel by channel. */
  lemma BuildLinksFour(p: Profile, a: Channel, b: Channel, c: Channel, d: Channel)
    ensures BuildLinks(p, [a, b, c, d]) ==
      When(Value(p, a) != "", LinkTo(p, a)) + When(Value(p, b) != "", LinkTo(p, b))
      + When(Value(p, c) != "", LinkTo(p, c)) + When(Value(p, d) != "", LinkTo(p, d))
  {
    assert [a, b, c, d] == [a, b] + [c, d];
    BuildLinksAppend(p, [a, b], [c, d]);
    BuildLinksTwo(p, a, b);
    BuildLinksTwo(p, c, d);
  }

  /** A two-channel order, channel by channel. */
  lemma BuildLinksTwo(p: Profile, a: Channel, b: Channel)
    ensures BuildLinks(p, [a, b]) ==
      When(Value(p, a) != "", LinkTo(p, a)) + When(Value(p, b) != "", LinkTo(p, b))
  {
    assert [a, b] == [a] + [b];
    BuildLinksAppend(p, [a], [b]);
    BuildLinksOne(p, a);
    BuildLinksOne(p, b);
  }

  /** Every entry of a built list is the link of a filled-in channel of the order. */
  lemma {:induction false} BuildLinksSound(p: Profile, order: seq<Channel>, l: Link)
    requires l in BuildLinks(p, order)
    ensures exists c :: c in order && Value(p, c) != "" && l == LinkTo(p, c)
  {
    BuildLinksCons(p, order);
    if l in BuildLinks(p, order[1..]) {
      BuildLinksSound(p, order[1..], l);
      var c :| c in order[1..] && Value(p, c) != "" && l == LinkTo(p, c);
      assert c in order;
    } else {
      assert Value(p, order[0]) != "" && l == LinkTo(p, order[0]);
    }
  }

  /** Every filled-in channel of the order has its link in the list. */
  lemma {:induction false} BuildLinksComplete(p: Profile, order: seq<Channel>, c: Channel)
    requires c in order && Value(p, c) != ""
    ensures LinkTo(p, c) in BuildLinks(p, order)
  {
    BuildLinksCons(p, order);
    if c != order[0] {
      BuildLinksComplete(p, order[1..], c);
    }
  }

  /** `href.startsWith("mailto:") || href.startsWith("tel:")`: a link that
      hands off to a protocol handler instead of opening a page. */
  predicate IsProtocolHref(href: string) {
    StartsWith(href, MailScheme) || StartsWith(href, TelScheme)
  }

  /** The `ExternalLink` and `CTA` components: a new tab for everything but
      `mailto:` and `tel:` targets. */
  function ExternalAnchor(l: Link): (a: Anchor)
    ensures a.caption == l.caption && a.href == l.href
    ensures a.newTab <==> !StartsWith(l.href, MailScheme) && !StartsWith(l.href, TelScheme)
  {
    Anchor(l.caption, l.href, !IsProtocolHref(l.href))
  }

  /** Rendered email and phone links stay in the current tab; the web
      channels open a new one unless their value itself starts with a
      protocol prefix. */
  lemma ChannelTabs(p: Profile, c: Channel)
    ensures c in {Email, Phone} ==> !ExternalAnchor(LinkTo(p, c)).newTab
    ensures c in {Website, GitHub, LinkedIn} ==>
      (ExternalAnchor(LinkTo(p, c)).newTab <==> !IsProtocolHref(Value(p, c)))
  {
    assert StartsWith(MailScheme + p.email, MailScheme);
    assert StartsWith(TelScheme + StripWs(p.phone), TelScheme);
  }

  /** `links.map(l => <ExternalLink href={l.href}>{l.label}</ExternalLink>)`. */
  function Anchors(links: seq<Link>): (r: seq<Anchor>)
    ensures |r| == |links|
    ensures forall i :: 0 <= i < |links| ==> r[i] == ExternalAnchor(links[i])
  {
    seq(|links|, i requires 0 <= i < |links| => ExternalAnchor(links[i]))
  }

  /** In any built list, the email and phone entries render in the current
      tab, and a web entry opens a new tab unless its value starts with a
      protocol prefix. */
  lemma BuiltLinkTabs(p: Profile, order: seq<Channel>, l: Link)
    requires l in BuildLinks(p, order)
    ensures l.caption in {"Email", "Call"} ==> !ExternalAnchor(l).newTab
    ensures l.caption in {"Website", "GitHub", "LinkedIn"} ==>
      (ExternalAnchor(l).newTab <==> !IsProtocolHref(l.href))
  {
    BuildLinksSound(p, order, l);
    var c :| c in order && Value(p, c) != "" && l == LinkTo(p, c);
    ChannelTabs(p, c);
  }
}
