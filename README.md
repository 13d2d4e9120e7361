# Portfolio display policy

This project models the display rules of a portfolio builder. A user fills in
a *portfolio draft* (profile, experience, projects, skills, education and a
chosen template id). The preview page then picks one of four templates:
Minimal, Neo, Glass or Classic. The chosen template projects the draft onto a
page. The model covers the following:

- **Contact links.** Each template builds its contact links from the profile
  in a fixed channel order. Only channels whose value is non-empty appear.
  E-mail becomes a `mailto:` link. The phone becomes a `tel:` link with all
  whitespace removed, captioned "Call". Neo has no phone link, and Classic
  uses captioned rows.
- **Link targets.** A link opens in a new tab unless its target starts with
  `mailto:` or `tel:`. Classic's contact rows and every project link always
  open in a new tab.
- **Section projection.** A section (projects, experience, skills, education)
  is shown only when its list is non-empty. Project highlights are capped at
  4 and tech at 10. Experience highlights are capped at 6, and skills at 60.
  Empty names get a placeholder ("Your Name", "Untitled project", "Role",
  "Company", "School", "Degree", and a per-template summary placeholder).
  Date ranges read `start — end`, or just `start` when there is no end.
- **Minimal's navigation bar.** It has one entry per visible section, in
  section order, and is hidden when no section is visible.
- **Template selection.** The preview looks the template up by id in a
  plain object and falls back to Glass when the lookup finds nothing. As
  written, the lookup also finds members inherited from `Object.prototype`
  ("constructor", "toString", "__proto__", …), so for those ids there is no
  fallback; see "## Findings". The rendered preview uses the intended
  selector: the four ids reach their own templates and every other id
  reaches Glass.

Modules:

- `Wrappers`: `Option`.
- `Text`: whitespace stripping, `||`-style fallbacks, date ranges.
- `Lists`: `filter(Boolean)` over optional entries, `slice(0, n)` caps.
- `DraftTypes`: the draft records and the template id enumeration.
- `Links`: the shared link builder and the new-tab policy.
- `Display`: the page data model and the shared section projection. All four
  templates show the same section content; among the modelled fields only
  the project-link caption differs. Section titles and static captions
  such as Neo's "Selected work" are layout and are not modelled.
- `MinimalPage`, `NeoPage`, `GlassPage`, `ClassicPage`: one module per
  template.
- `Preview`: the template registry and the Glass fallback.

A rendered page is a value (`Display.Page`). It records what the reader sees:
texts, which optional blocks are present, link captions, targets, and whether
each link opens a new tab. It does not record markup.

## Model

| member | source | states |
|---|---|---|
| Text.StripWs | templates/minimal/page.tsx:48 | the stripped phone number contains no whitespace character and is no longer than the input |
| Text.StripWsKeeps | templates/minimal/page.tsx:48 | a character survives stripping exactly when it occurs in the input and is not whitespace |
| Text.StripWsAppend | templates/minimal/page.tsx:48 | stripping distributes over concatenation |
| Text.StripWsFixpoint | templates/minimal/page.tsx:48 | stripping leaves a string unchanged exactly when it has no whitespace |
| Text.StripWsIdempotent | templates/minimal/page.tsx:48 | stripping twice equals stripping once |
| Text.StripWsPhoneExample | templates/minimal/page.tsx:48 | "+1 555 000 1111" strips to "+15550001111" |
| Text.OrElse | templates/minimal/page.tsx:65 | a non-empty value is shown as is; an empty one is replaced by the fallback; a non-empty fallback never yields empty text |
| Text.DateRange | templates/minimal/page.tsx:180-181 | the range starts with the start date; it is the start alone exactly when the end is empty, otherwise the start followed by " — " and the end |
| Lists.Present | templates/minimal/page.tsx:43-49 | dropping absent entries never lengthens the list |
| Lists.PresentMembers | templates/minimal/page.tsx:49 | an item is in the filtered list exactly when `Some(item)` is among the entries |
| Lists.PresentAppend | templates/minimal/page.tsx:49 | filtering distributes over concatenation, so order is kept |
| Lists.Take | templates/minimal/page.tsx:144 | `slice(0, n)` yields a prefix of length min(n, length) |
| Lists.Capped | templates/minimal/page.tsx:142-148 | a capped block is absent exactly for an empty list; otherwise it is a prefix of length min(cap, length) |
| Lists.CappedWhole | templates/minimal/page.tsx:206 | a list no longer than the cap is shown whole |
| DraftTypes.ParseTemplateId | lib/draftTypes.ts:1 | a string parses to a template id exactly when it is that id's name |
| DraftTypes.TemplateIdRoundTrip | lib/draftTypes.ts:1 | parsing an id's name gives back the id |
| Links.HrefFormat | templates/minimal/page.tsx:44-48 | e-mail targets are `mailto:` plus the address; phone targets are `tel:` plus the whitespace-free number; web channels link to the value itself |
| Links.Candidate | templates/minimal/page.tsx:44-48 | a channel yields a link exactly when its profile value is non-empty, with the channel's caption and target |
| Links.BuildLinks | templates/minimal/page.tsx:43-49 | the link list is never longer than the channel order |
| Links.BuildLinksAppend | templates/minimal/page.tsx:43-49 | links for a concatenated order are the concatenated link lists, so channel order is kept |
| Links.BuildLinksSound | templates/minimal/page.tsx:43-49 | every built link comes from a channel in the order whose value is non-empty |
| Links.BuildLinksComplete | templates/minimal/page.tsx:43-49 | every channel in the order with a non-empty value contributes its link |
| Links.ExternalAnchor | templates/minimal/page.tsx:5-12 | caption and target are kept; the link opens a new tab exactly when its target starts with neither `mailto:` nor `tel:` |
| Links.ChannelTabs | templates/minimal/page.tsx:5-12 | e-mail and phone links stay in the current tab; website, GitHub and LinkedIn links open a new tab unless their value itself starts with `mailto:` or `tel:` |
| Links.Anchors | templates/minimal/page.tsx:77-81 | every link is rendered, in order, under the new-tab policy |
| Links.BuiltLinkTabs | templates/minimal/page.tsx:5-49 | a built link captioned Email or Call stays in the tab; one captioned Website, GitHub or LinkedIn opens a new tab unless its target starts with `mailto:` or `tel:` |
| Display.IfPresent | templates/minimal/page.tsx:67-72 | an optional line is present exactly when its text is non-empty, and shows that text |
| Display.LocationSuffix | templates/minimal/page.tsx:186 | the suffix is empty exactly for a missing or empty location, otherwise " • " followed by the location |
| Display.OptionalText | templates/minimal/page.tsx:235-237 | notes are shown exactly when present and non-empty |
| Display.ProjectCardOf | templates/minimal/page.tsx:115-162 | a project card has a placeholder title, a new-tab link exactly when the link is set, a description exactly when it is set, and highlights capped at 4 and tech capped at 10 |
| Display.ExperienceCardOf | templates/minimal/page.tsx:172-196 | an experience card has the role and company with placeholders, the date range, the location suffix, and highlights capped at 6 |
| Display.EducationCardOf | templates/minimal/page.tsx:222-239 | an education card has school and degree with placeholders, the date range, and notes when set |
| Display.SectionsOf | templates/minimal/page.tsx:110-243 | each section is shown exactly when its list is non-empty, one card per entry, and skills are capped at 60 |
| Display.NoEmptyShells | templates/minimal/page.tsx:112 | no visible section is empty |
| Display.SevenHighlightsShowFour | templates/minimal/page.tsx:144 | a project with seven highlights shows its first four |
| MinimalPage.MinimalLinks | templates/minimal/page.tsx:43-49 | Minimal has at most five contact links |
| MinimalPage.MinimalLinksShape | templates/minimal/page.tsx:43-49 | the links are website, GitHub, LinkedIn, e-mail, phone, in that order, each present exactly when its value is non-empty |
| MinimalPage.EmailOnlyExample | templates/minimal/page.tsx:47 | a profile with only an e-mail yields the single link Email → `mailto:a@b.com` |
| MinimalPage.PhoneOnlyExample | templates/minimal/page.tsx:48 | a profile with only "+1 555 000 1111" yields the single link Call → `tel:+15550001111` |
| MinimalPage.NavEntry | templates/minimal/page.tsx:51-56 | a navigation entry appears exactly when its section is shown |
| MinimalPage.Nav | templates/minimal/page.tsx:51-56 | the navigation has at most four entries |
| MinimalPage.NavShape | templates/minimal/page.tsx:51-56 | the navigation lists projects, experience, skills, education in that order, each exactly when its list is non-empty |
| MinimalPage.NavMatchesSections | templates/minimal/page.tsx:51-113 | a section has a navigation entry exactly when it is shown; the bar is hidden exactly when no section is shown |
| MinimalPage.RenderMinimal | templates/minimal/page.tsx:39-251 | the page has a Minimal header with a non-empty name |
| MinimalPage.MinimalSections | templates/minimal/page.tsx:110-243 | Minimal follows the shared section policy with the "↗" project-link caption |
| MinimalPage.MinimalHeaderPolicy | templates/minimal/page.tsx:63-90 | name and summary fall back to their placeholders; headline and location appear exactly when set; the header links are the built links in order |
| MinimalPage.MinimalLinkTabs | templates/minimal/page.tsx:5-12 | header links open a new tab exactly when not `mailto:`/`tel:`; Email and Call stay in the tab |
| NeoPage.NeoLinks | templates/neo/page.tsx:36-41 | Neo has at most four links and never a phone link |
| NeoPage.NeoLinksShape | templates/neo/page.tsx:36-41 | the links are website, GitHub, LinkedIn, e-mail, in that order, each present exactly when its value is non-empty |
| NeoPage.CtaBlock | templates/neo/page.tsx:69-76 | the call-to-action block is absent exactly when there are no links; otherwise it has one button per link, in order, and only the first is primary |
| NeoPage.Pills | templates/neo/page.tsx:63-66 | the pills are the location, then the e-mail, each present exactly when set |
| NeoPage.RenderNeo | templates/neo/page.tsx:32-219 | the page has a Neo header with a non-empty name |
| NeoPage.NeoSections | templates/neo/page.tsx:86-210 | Neo follows the shared section policy |
| NeoPage.NeoCtaPolicy | templates/neo/page.tsx:69-76 | the buttons match the links one to one; the first is primary and the rest are not |
| NeoPage.NeoCtaTabs | templates/neo/page.tsx:13-20 | a button opens a new tab exactly when its target is neither `mailto:` nor `tel:`; the Email button stays in the tab |
| NeoPage.NeoHeaderPolicy | templates/neo/page.tsx:56-81 | name and summary fall back to their placeholders; the headline appears exactly when set; the pills are location then e-mail |
| GlassPage.GlassLinks | templates/glass/page.tsx:40-46 | Glass has at most five contact links |
| GlassPage.GlassLinksShape | templates/glass/page.tsx:40-46 | the links are website, GitHub, LinkedIn, e-mail, phone, in that order, each present exactly when its value is non-empty |
| GlassPage.ContactLineOf | templates/glass/page.tsx:67-73 | the contact line appears when location or e-mail is set, shows each one exactly when set, and has a separator exactly when both are set |
| GlassPage.RenderGlass | templates/glass/page.tsx:37-233 | the page has a Glass header with a non-empty name |
| GlassPage.GlassSections | templates/glass/page.tsx:96-224 | Glass follows the shared section policy |
| GlassPage.GlassHeaderPolicy | templates/glass/page.tsx:59-83 | name and summary fall back to their placeholders; the contact line appears and separates as above |
| GlassPage.GlassLinkTabs | templates/glass/page.tsx:7-14 | header links open a new tab exactly when not `mailto:`/`tel:`; Email and Call stay in the tab |
| ClassicPage.LinkRow | templates/classic/page.tsx:26-48 | a row is hidden exactly when its value is empty; it shows caption and value, and links the value in a new tab exactly when a target is given |
| ClassicPage.TargetIfSet | templates/classic/page.tsx:73-77 | a row's target is given exactly when its value is non-empty |
| ClassicPage.ContactRows | templates/classic/page.tsx:72-78 | there are at most five contact rows |
| ClassicPage.ContactRowsShape | templates/classic/page.tsx:73-77 | the rows are e-mail, phone, website, GitHub, LinkedIn, in that order, each present exactly when set, with `mailto:`/`tel:` targets for e-mail and phone |
| ClassicPage.ClassicRowsOpenNewTab | templates/classic/page.tsx:38-42 | every shown contact row links its value in a new tab, e-mail and phone included |
| ClassicPage.RenderClassic | templates/classic/page.tsx:50-215 | the page has a Classic header with a non-empty name |
| ClassicPage.ClassicSections | templates/classic/page.tsx:86-207 | Classic follows the shared section policy with the "View ↗" project-link caption |
| ClassicPage.ClassicHeaderPolicy | templates/classic/page.tsx:61-83 | name and summary fall back to their placeholders; headline and location appear exactly when set |
| Preview.Select | app/preview/page.tsx:9-18 | intended selection: a known id selects its own template; every other id, inherited object keys included, selects Glass |
| Preview.SelectAsWritten | app/preview/page.tsx:9-18 | selection as written: a known id selects its own template; an id naming an inherited `Object.prototype` member yields that member, not a template; every other id selects what `Select` selects |
| Preview.InheritedKeysBypassFallback | app/preview/page.tsx:18 | for every inherited key the intended selector gives Glass while the lookup as written gives the inherited member |
| Preview.ConstructorBypassesFallback | app/preview/page.tsx:18 | the id "constructor" selects Glass as intended but the inherited `constructor` member as written |
| Preview.AsWrittenAgreesElsewhere | app/preview/page.tsx:9-18 | outside the inherited keys the lookup as written and the intended selector agree |
| Preview.RegistryKeys | app/preview/page.tsx:9-14 | the registry has exactly the four template ids |
| Preview.SelectDistinct | app/preview/page.tsx:9-14 | different ids select different templates |
| Preview.FallbackIsGlass | app/preview/page.tsx:18 | under the intended selector any id outside the registry renders like "glass" |
| Preview.UnknownIdsFallBack | app/preview/page.tsx:18 | "unknown-id" and the empty id both render like "glass" |
| Preview.PreviewPage | app/preview/page.tsx:16-20 | with the intended selector the preview renders the parsed template, or Glass when the id does not parse |
| Preview.PreviewDispatch | app/preview/page.tsx:9-19 | with the intended selector "minimal", "neo" and "classic" render their own template; any other id renders Glass |
| Preview.EveryTemplateHidesEmptySections | app/preview/page.tsx:18-19 | whatever template is chosen, each section is hidden exactly when its list is empty |
| Preview.RenderIgnoresPassThrough | lib/draftTypes.ts:3-6 | no template depends on `updatedAt`, `responsibilities` or the template id |

## Left out

- `normalizeDraft`, `defaultDraft` and `loadDraftFromJson` are not part of
  this model. Minimal, Neo and Classic pass the draft through
  `normalizeDraft`. Glass reads it directly. The model treats the draft as
  already complete, with every field present, and reads it directly
  everywhere.
- Markup, CSS classes, React keys and the default `Page` wrappers that
  render the template with a default draft are not modelled. A page is
  the value described above.
- `rel="noreferrer"` is not modelled separately. The source sets it under
  the same condition as `target="_blank"`, so `newTab` stands for both.
- `updatedAt` is kept as an unbounded integer. No template reads it, so its
  numeric width does not matter here.
- Project cards record the project-link caption only. Minimal, Neo and
  Glass use "↗" and Classic uses "View ↗". The link glyph's styling is not
  modelled.
- ClassicPage.ClassicRowsOpenNewTab: Classic's contact rows always use
  `target="_blank"`, even for `mailto:` and `tel:`. This differs from the
  rule that mail and phone links stay in the current tab. The model follows
  the code.
- `Draft.templateId` is a plain string, because the loaded JSON is not
  checked against the `TemplateId` union. The fallback to Glass can only
  happen for strings outside that union and outside the inherited
  `Object.prototype` keys.
- Preview.SelectAsWritten: what React does with an inherited member in
  place of a component (it throws or renders nothing useful) is not
  modelled; the result only records which member was found.
- Preview.PreviewPage, Preview.PreviewDispatch, Preview.FallbackIsGlass:
  these use the intended selector, so they render Glass for the inherited
  keys too; the code as written does not (see "## Findings").
- `String.prototype.replace(/\s+/g, "")` is modelled by `Text.StripWs`, which
  deletes every character of the ECMAScript WhiteSpace and LineTerminator
  sets. The regular-expression engine itself is not modelled.
- Text is a sequence of characters. Encoding is not modelled.

## Findings

| source | as written | input that shows it | evidently intended | confidence | as-written member | corrected member |
|---|---|---|---|---|---|---|
| app/preview/page.tsx:18 | `map[draft.templateId] ?? GlassTemplate` on a plain object literal also finds members inherited from `Object.prototype`, which are not nullish, so `??` does not fall back | a draft whose `templateId` is "constructor" (or "toString", "__proto__") | every id other than the four template ids renders Glass | not executed | Preview.SelectAsWritten, Preview.ConstructorBypassesFallback | Preview.Select |
