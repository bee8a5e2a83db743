# Prompt-to-UI: the extractor, the live templates and the code emitter

Prompt-to-UI turns a free-text description of a user interface into a list of
component descriptors `{ type, props }`, shows them through fixed React
templates, and prints the source code of an equivalent React component. This
project models the three pieces of logic behind that and proves what they do.

- **The extractor.** `parsePrompt` and `extractProperty` live in
  `src/App.jsx`, and a second copy sits in the effect of
  `src/components/GeneratedUI.jsx`.
  - A kind is detected when one of its trigger words occurs in the
    lower-cased prompt.
  - Each detected kind contributes one descriptor, in a fixed kind order.
  - Every property value is the trimmed group 1 of the leftmost match of the
    pattern `<kind>\s+(?:with|having)?\s+<prop>[:\s]+["']?([^"']+)["']?`
    (flag `i`).
  - `a || b` picks a second property alias.
  - A non-blank prompt in which nothing is detected gets one fallback hero or
    card.
- **The templates.** Each template of `GeneratedUI` shows a property when it
  is a non-empty string and a fixed default otherwise. The page shows one view
  per descriptor whose type has a template, or an empty-state message for an
  empty list.
- **The emitter.** `generateComponentCode` of `src/components/CodePreview.jsx`
  and the effect that assembles the code text.

## Modules

| file | module | what it holds |
|---|---|---|
| `js.dfy` | `Js` | The JavaScript primitives used: the ECMAScript whitespace set of `\s` and `trim`, ASCII `toLowerCase`, `includes`, `trim`, truthiness, and `\|\|` on a possibly-null string. |
| `descriptors.dfy` | `Descriptors` | `Kind`, the detection order, the `type` strings, `Props` and `Component`. |
| `pattern.dfy` | `Pattern` | The one regular expression. `MatchAt` is a matcher written for its shape. `RefAt`/`RefMatch` is a reference that tries every length of the joining quantifiers `\s+(?:with\|having)?\s+`, greediest first, as the ECMAScript engine does (section 22.2 of ECMA-262). For the tail after the property name it reuses the matcher's `AfterProp`/`Backtrack`, whose behaviour `AfterPropShape` characterises on its own. Lemmas prove the two equal and characterise what a match is. |
| `app.dfy` | `App` | `extractProperty`, and `Components`, the specification of `parsePrompt`. The method `ParsePrompt` is the source's sequence of conditional pushes, proved to compute `Components`. |
| `parsing.dfy` | `Parsing` | The properties of `parsePrompt`: ordering, uniqueness, detection, fallback, alias precedence, what a value can contain. |
| `generated_ui.dfy` | `GeneratedUI` | The second copy of the extractor, proved equal to the first, and the effect as a method. Also the templates' default resolution as `View` values, and the page rendering. |
| `code_preview.dfy` | `CodePreview` | The snippets of `generateComponentCode` line by line, the code text `Code`, and the method `GenerateCode` (the effect's `+=` loop) proved to build it. |
| `preview.dfy` | `Preview` | The agreement of the two panels: every text a template shows is written into the code. |

## Model

| member | source | states |
|---|---|---|
| Js.Trim | src/App.jsx:93 | `trim` returns a contiguous slice of its input with no whitespace at either end, and it is empty exactly when the input is all whitespace. |
| Js.TrimRemovesOnlySpace | src/App.jsx:93 | Everything `trim` cuts off, before and after the slice it returns, is whitespace. |
| Js.LowerStr | src/App.jsx:31 | `toLowerCase` keeps the length and lower-cases each character on its own. |
| Js.OrPrecedence | src/App.jsx:32-33 | `a \|\| b` is a when a is a non-empty string, and b (whatever it is) when a is null or "". |
| Js.OrDefault | src/components/GeneratedUI.jsx:6 | `value \|\| 'default'` is the string held when it is non-empty and the default when the value is null or ""; with a non-empty default it is never empty. |
| Descriptors.Rank | src/App.jsx:31-77 | Every kind has one position in the fixed detection order. |
| Descriptors.ParseKind | src/components/CodePreview.jsx:41-67 | A `type` string the `switch` recognises is exactly the name of the kind it selects. |
| Descriptors.ParseKindName | src/components/CodePreview.jsx:41-64 | Round trip: the `switch` recognises every kind's own `type` string as that kind. |
| Descriptors.Get | src/components/GeneratedUI.jsx:6 | `props.key` is the stored value for a present key and null for a missing one. |
| Pattern.Capture | src/App.jsx:91 | `([^"']+)` succeeds exactly when a non-quote character stands at the position. Its span is then the whole non-quote run. |
| Pattern.ValueAt | src/App.jsx:91 | `["']?([^"']+)["']?` fails exactly at the end of the text or at a quote followed by another quote or the end. Otherwise the capture starts at the position or just after an opening quote. |
| Pattern.MatchAt | src/App.jsx:91 | A match at a start yields a capture of the text, which begins after the kind word. |
| Pattern.AfterPropShape | src/App.jsx:91 | After the property name the separator run is maximal and the capture normally follows it. When the run is followed by the end, or by a quote that is followed by a quote or the end, backtracking hands the last separator character to the capture. |
| Pattern.EmptyQuotesCapture | src/App.jsx:91 | Empty quotes after a separator run of two or more (`label: ''`) leave the run's last character as the capture, and a whitespace capture trims to "". |
| Pattern.Match | src/App.jsx:91-92 | The captured group is never empty and never contains `'` or `"`. |
| Pattern.MatchAtSound | src/App.jsx:91 | Every match consists of the kind word, a joining run, the property name, separators and the capture. The joining run is whitespace, optional `with`/`having`, and whitespace again, with at least two characters when there is no connective. |
| Pattern.MatchAtComplete | src/App.jsx:91 | Conversely, the kind word, a joining run, the property name and a separator run followed by a value character always match at that start. |
| Pattern.AfterPropSome | src/App.jsx:91 | A separator run followed by a usable value character completes the pattern. |
| Pattern.MatchIsLeftmost | src/App.jsx:92 | `match` fails exactly when no start position matches. Otherwise it returns the capture of the leftmost matching start. |
| Pattern.MatchAtIsBacktracking | src/App.jsx:91 | At each start, the shape-specific matcher gives the same result as the reference that tries every length of `\s+(?:with\|having)?\s+` greediest first. Both share the tail after the property name (`AfterProp`), which `AfterPropShape` describes. |
| Pattern.RefMatchIsMatch | src/App.jsx:91-92 | The search of the backtracking reference and the hand-written search yield the same group 1 on every text. |
| Pattern.MatchNeedsWords | src/App.jsx:91 | A match needs both the kind word and the property name in the lower-cased text. |
| Pattern.UnjoinedNoMatch | src/App.jsx:91-92 | When every occurrence of the kind word is followed by at most one whitespace character and no `with`/`having` (as in `hero section`), nothing matches, for any property name. |
| App.TrimQuoteFree | src/App.jsx:93 | Trimming a quote-free capture leaves it quote-free. |
| App.ExtractProperty | src/App.jsx:90-94 | `extractProperty` is non-null exactly when the pattern matches, and a value it returns has no whitespace at either end. |
| App.ExtractPropertyMeaning | src/App.jsx:90-94 | `extractProperty` is non-null exactly when the pattern matches. Its value is then the trimmed capture, quote-free and trimmed, and the kind word and property name both occur in the prompt. |
| App.DetectedMembers | src/App.jsx:31-77 | A kind is pushed exactly when one of its trigger words occurs in the lower-cased prompt. |
| App.DetectedNone | src/App.jsx:79 | With no trigger word, nothing is pushed before the fallback. |
| App.DescribeAll | src/App.jsx:34-76 | One descriptor per detected kind, each the one the property table gives for that kind. |
| App.Components | src/App.jsx:28-88 | Every descriptor `parsePrompt` returns has one of the eight `type` strings the templates and the emitter know. |
| App.UpToDetected | src/App.jsx:29-77 | After the first n conditional pushes, the list holds the descriptors of the kinds detected among the first n of the order. |
| App.FallbackStep | src/App.jsx:79-85 | After the eight pushes, the fallback adds a hero (for "welcome"/"landing") or a card exactly when the list is empty and the trimmed prompt is not. |
| App.PushButton | src/App.jsx:31-35 | The button step appends `{button, {label}}` with label then text as aliases when "button" occurs. |
| App.PushInput | src/App.jsx:37-40 | The input step appends the placeholder descriptor when "input" occurs. |
| App.PushCard | src/App.jsx:42-47 | The card step appends title and content (content, then text) when "card" occurs. |
| App.PushNavbar | src/App.jsx:49-52 | The navbar step for "navbar" or "navigation", looking up the title after "navbar". |
| App.PushForm | src/App.jsx:54-58 | The form step appends `submitText` (submit, then button) when "form" occurs. |
| App.PushHero | src/App.jsx:60-65 | The hero step appends title, subtitle and buttonText (looked up as "button") when "hero" occurs. |
| App.PushGallery | src/App.jsx:67-69 | The gallery step appends empty props for "gallery" or "image". |
| App.PushTestimonial | src/App.jsx:71-77 | The testimonial step appends quote (quote, then text) and author (author, then name) for "testimonial" or "review". |
| App.ParsePrompt | src/App.jsx:28-88 | The method returns exactly `Components(promptText)`, the specification. |
| Parsing.OrderRanks | src/App.jsx:31-77 | The order lists each kind at its rank. |
| Parsing.KindNameInjective | src/App.jsx:34-76 | Different kinds have different `type` strings. |
| Parsing.NotInBlank | src/App.jsx:79 | A word that starts with a non-space character does not occur in a whitespace-only text. |
| Parsing.BlankTriggersNothing | src/App.jsx:31-77 | A whitespace-only prompt contains no trigger word. |
| Parsing.BlankIffNoComponents | src/App.jsx:79-87 | The list is empty exactly when the prompt is empty or whitespace only. |
| Parsing.NothingDetected | src/App.jsx:79-85 | A non-blank prompt without trigger words yields exactly one descriptor. It is a hero titled "Welcome" with the untrimmed prompt as subtitle when "welcome" or "landing" occurs, and otherwise a card titled "Generated Content" with the prompt as content. |
| Parsing.DetectedInOrder | src/App.jsx:31-77 | The detected kinds are strictly increasing in the fixed order, so at most one per kind. |
| Parsing.SomeDetected | src/App.jsx:79 | When some trigger word occurs, the list is exactly the detected descriptors and there is no fallback. |
| Parsing.DetectedCase | src/App.jsx:31-77 | With detections, the kinds of the list are the detected kinds. |
| Parsing.FallbackComponents | src/App.jsx:79-85 | Without detections and with a non-blank prompt, the list is the single fallback. |
| Parsing.FallbackKinds | src/App.jsx:79-85 | The kind list of the fallback case is the fallback's kind. |
| Parsing.FallbackType | src/App.jsx:81-83 | The fallback's `type` is hero or card. |
| Parsing.BlankCase | src/App.jsx:79 | A prompt that is blank after trimming and has no detections yields nothing. |
| Parsing.KindsLength | src/App.jsx:28-87 | There is one kind per descriptor. |
| Parsing.KindsTypes | src/App.jsx:28-87 | Each descriptor's `type` is its kind's name. |
| Parsing.KindsDescriptors | src/App.jsx:31-77 | Each detected descriptor is the one the property table gives. |
| Parsing.KindsOfComponents | src/App.jsx:28-87 | The above three together. |
| Parsing.ComponentsInOrder | src/App.jsx:31-77 | The list follows the fixed kind order whatever the textual order. It has at most eight entries and no two share a `type`. |
| Parsing.TriggeredIffPresent | src/App.jsx:31-77 | A triggered kind's descriptor is in the list, and with any detection a kind is in the list exactly when triggered. |
| Parsing.ContainsTransitive | src/App.jsx:54 | Containment is transitive, so any word containing a trigger word triggers. |
| Parsing.TriggerWords | src/App.jsx:49-71 | "navigation" triggers navbar, "image" triggers gallery, "review" triggers testimonial and "platform" triggers form. |
| Parsing.UpperCaseTriggers | src/App.jsx:54 | Detection is case-insensitive: "FORM" triggers form. |
| Parsing.LowerKeepsSpace | src/App.jsx:79 | Lower-casing turns no character into whitespace or out of it. |
| Parsing.CaseInsensitiveKinds | src/App.jsx:31-85 | Two prompts equal after `toLowerCase` yield descriptors of the same kinds in the same order. |
| Parsing.ComponentAt | src/App.jsx:28-87 | The i-th descriptor is the property table's descriptor of the i-th kind, or the fallback. |
| Parsing.NavbarDescriptor | src/App.jsx:49-51 | The navbar title is looked up after "navbar", not after the trigger word. |
| Parsing.NavigationWithoutNavbar | src/App.jsx:49-51 | A prompt with "navigation" but without "navbar" gets a navbar whose title is null. |
| Parsing.DescriptorKeys | src/App.jsx:34-76 | No descriptor has a role; exactly the gallery has empty props, and exactly the hero has `buttonText`. |
| Parsing.FallbackKeys | src/App.jsx:81-83 | The fallback has neither a role nor a button text and is not a gallery. |
| Parsing.GalleryHasNoProps | src/App.jsx:67-68 | A gallery descriptor always has empty props. |
| Parsing.RoleNeverSet | src/App.jsx:28-87 | No descriptor the extractor builds has a `role`. |
| Parsing.ButtonTextIsHero | src/App.jsx:63-64 | Only a detected hero carries `buttonText`. |
| Parsing.HeroButtonText | src/App.jsx:63 | The hero's button text is the value found for the name "button". |
| Parsing.HeroButtonNeedsButton | src/App.jsx:31-64 | A hero whose button text was found is preceded in the list by a button descriptor, because finding it needs the word "button". |
| Parsing.ExtractClean | src/App.jsx:90-94 | An extracted value is null or a trimmed quote-free string. |
| Parsing.AliasClean | src/App.jsx:32-33 | The same holds after applying `a \|\| b` to two aliases. |
| Parsing.PropsClean | src/App.jsx:31-77 | Every prop of a detected descriptor is null or trimmed and quote-free. |
| Parsing.ExtractedValuesClean | src/App.jsx:31-77 | When any kind is detected, every prop of every descriptor is null or a trimmed quote-free string. |
| Parsing.AliasPrecedence | src/App.jsx:32-33 | With two aliases the first one's value is kept whenever it is a non-empty string, and otherwise the second's is used, null or not. The first is falsy exactly when it does not match or captures only whitespace. |
| Parsing.UnjoinedHeroIsEmpty | src/App.jsx:60-65 | When no occurrence of "hero" is joined to a property name (`a hero section with title ...`), the hero's title, subtitle and button text are null. |
| GeneratedUI.ExtractPropertyAgrees | src/components/GeneratedUI.jsx:157-161 | This component's `extractProperty`, run through the backtracking reference, returns the same trimmed capture or null as `App`'s. |
| GeneratedUI.ExtractProperty | src/components/GeneratedUI.jsx:157-161 | This copy of `extractProperty` is non-null exactly when the reference search matches, and its value has no whitespace at either end. |
| GeneratedUI.ButtonValues | src/components/GeneratedUI.jsx:96-97 | The effect's button label lookup gives `parsePrompt`'s value. |
| GeneratedUI.InputValues | src/components/GeneratedUI.jsx:102 | The same for the placeholder. |
| GeneratedUI.CardValues | src/components/GeneratedUI.jsx:107-109 | The same for title and content. |
| GeneratedUI.NavbarValues | src/components/GeneratedUI.jsx:114 | The same for the navbar title. |
| GeneratedUI.FormValues | src/components/GeneratedUI.jsx:119-120 | The same for the submit text. |
| GeneratedUI.HeroValues | src/components/GeneratedUI.jsx:125-127 | The same for the hero's three props. |
| GeneratedUI.TestimonialValues | src/components/GeneratedUI.jsx:136-139 | The same for quote and author. |
| GeneratedUI.DetectButton | src/components/GeneratedUI.jsx:95-99 | The effect's step extends the list exactly as `parsePrompt`'s first step does. |
| GeneratedUI.DetectInput | src/components/GeneratedUI.jsx:101-104 | The same for the input step. |
| GeneratedUI.DetectCard | src/components/GeneratedUI.jsx:106-111 | The same for the card step. |
| GeneratedUI.DetectNavbar | src/components/GeneratedUI.jsx:113-116 | The same for the navbar step. |
| GeneratedUI.DetectForm | src/components/GeneratedUI.jsx:118-122 | The same for the form step. |
| GeneratedUI.DetectHero | src/components/GeneratedUI.jsx:124-129 | The same for the hero step. |
| GeneratedUI.DetectGallery | src/components/GeneratedUI.jsx:131-133 | The same for the gallery step. |
| GeneratedUI.DetectTestimonial | src/components/GeneratedUI.jsx:135-141 | The same for the testimonial step. |
| GeneratedUI.EmptyPrompt | src/components/GeneratedUI.jsx:87-90 | The `!prompt` early exit returns what `parsePrompt("")` returns: the empty list. |
| GeneratedUI.ComputeComponents | src/components/GeneratedUI.jsx:86-154 | For every prompt, the list the effect stores equals `parsePrompt(prompt)`. |
| GeneratedUI.TemplateDefined | src/components/GeneratedUI.jsx:167-172 | A descriptor has a template exactly when its `type` is one of the eight kind names. |
| GeneratedUI.Template | src/components/GeneratedUI.jsx:167 | `templates[component.type]` exists exactly for the type strings the emitter's `switch` recognises. |
| GeneratedUI.KindView | src/components/GeneratedUI.jsx:3-81 | Each template shows as many slot texts as its kind has entries in the slot table. |
| GeneratedUI.KindViewDisplayable | src/components/GeneratedUI.jsx:3-81 | Whatever the props, no text a template shows is empty. The testimonial's initial is the first letter of the displayed author (`props.author ? props.author.charAt(0) : 'J'` against `'Jane Doe'`). |
| GeneratedUI.TemplateDisplayable | src/components/GeneratedUI.jsx:67-79 | The same for every descriptor with a template. |
| GeneratedUI.ButtonViewSlots | src/components/GeneratedUI.jsx:6 | The button shows exactly one slot, its label or "Button". |
| GeneratedUI.InputViewSlots | src/components/GeneratedUI.jsx:12 | The input shows exactly one slot, its placeholder or "Enter text...". |
| GeneratedUI.CardViewSlots | src/components/GeneratedUI.jsx:18-19 | The card's slots are exactly [title or "Card Title", content or "Card content goes here"], in that order. |
| GeneratedUI.NavbarViewSlots | src/components/GeneratedUI.jsx:25 | The navbar shows exactly one slot, its title or "Site Name". |
| GeneratedUI.FormViewSlots | src/components/GeneratedUI.jsx:45 | The form shows exactly one slot, its submit text or "Submit". |
| GeneratedUI.HeroViewSlots | src/components/GeneratedUI.jsx:51-54 | The hero's slots are exactly its title, subtitle and button text, in that order, each replaced by its default when null, missing or empty. |
| GeneratedUI.TestimonialViewSlots | src/components/GeneratedUI.jsx:69-76 | The testimonial's slots are exactly its quote, author and role, in that order, each replaced by its default when null, missing or empty. |
| GeneratedUI.KindFields | src/components/GeneratedUI.jsx:3-81 | Slot by slot, every template shows the property named in the slot table when it is a non-empty string, and that slot's default otherwise. |
| GeneratedUI.UnjoinedHeroShowsDefaults | src/components/GeneratedUI.jsx:51-54 | The hero of such a prompt shows every default of its template, starting with "Welcome to our site". |
| GeneratedUI.KindTexts | src/components/GeneratedUI.jsx:27-64 | After its slots, the navbar lists Home, About and Contact, and the gallery lists Image 1 to 3. |
| GeneratedUI.TemplateFields | src/components/GeneratedUI.jsx:167-170 | A descriptor whose `type` names a kind is shown by that kind's template applied to its props. |
| GeneratedUI.Render | src/components/GeneratedUI.jsx:166-173 | The page has at most one view per descriptor, and every view is displayable. |
| GeneratedUI.RenderFromList | src/components/GeneratedUI.jsx:166-173 | Every view on the page is the template of some descriptor of the list. |
| GeneratedUI.RenderAll | src/components/GeneratedUI.jsx:166-173 | When every type has a template, the page shows one view per descriptor, in list order. |
| GeneratedUI.ParsedAllRendered | src/components/GeneratedUI.jsx:166-173 | For any extracted list, every descriptor is rendered, in order. |
| GeneratedUI.TestimonialRole | src/components/GeneratedUI.jsx:76 | Only a testimonial view has a role, and it is "Customer" when the descriptor has none. |
| GeneratedUI.ParsedTestimonialRole | src/components/GeneratedUI.jsx:76 | Every testimonial view of an extracted list shows the role "Customer". |
| GeneratedUI.EmptyStateIffBlank | src/components/GeneratedUI.jsx:174-181 | The empty-state message shows exactly for an empty or whitespace-only prompt. |
| CodePreview.Indented | src/components/CodePreview.jsx:43-67 | A snippet written as `${indent}line\n` lines is empty only with no lines. Otherwise it starts with the indentation and ends with a line break. |
| CodePreview.KindCode | src/components/CodePreview.jsx:37-41 | A descriptor whose `type` names a kind is written by that kind's `case`. |
| CodePreview.KindLinesNonEmpty | src/components/CodePreview.jsx:42-64 | Every kind's snippet has at least one line. |
| CodePreview.GenerateComponentCode | src/components/CodePreview.jsx:37-69 | Every snippet, known type or not, starts with `indentLevel` spaces and ends with `\n`. |
| CodePreview.ButtonEmits | src/components/CodePreview.jsx:43 | The button snippet contains the label it is given. |
| CodePreview.InputEmits | src/components/CodePreview.jsx:46 | The input snippet contains its placeholder. |
| CodePreview.CardEmits | src/components/CodePreview.jsx:49 | The card snippet contains its title and content. |
| CodePreview.NavbarEmits | src/components/CodePreview.jsx:52 | The navbar snippet contains its title. |
| CodePreview.FormEmits | src/components/CodePreview.jsx:55 | The form snippet contains its submit text. |
| CodePreview.HeroEmits | src/components/CodePreview.jsx:58 | The hero snippet contains its title, subtitle and button text. |
| CodePreview.TestimonialEmits | src/components/CodePreview.jsx:64 | The testimonial snippet contains its quote, author and role. |
| CodePreview.ButtonWritten | src/components/CodePreview.jsx:43 | The button snippet writes the label, verbatim, or "Button". |
| CodePreview.InputWritten | src/components/CodePreview.jsx:46 | The input snippet writes the placeholder or "Enter text...". |
| CodePreview.CardWritten | src/components/CodePreview.jsx:49 | The card snippet writes the title or "Card Title", and the content or "Card content goes here". |
| CodePreview.NavbarWritten | src/components/CodePreview.jsx:52 | The navbar snippet writes the title or "Site Name". |
| CodePreview.FormWritten | src/components/CodePreview.jsx:55 | The form snippet writes the submit text or "Submit". |
| CodePreview.HeroWritten | src/components/CodePreview.jsx:58 | The hero snippet writes title, subtitle and button text or their defaults. |
| CodePreview.TestimonialWritten | src/components/CodePreview.jsx:64 | The testimonial snippet writes quote, author and role or their defaults. |
| CodePreview.DefaultRoleEmitted | src/components/CodePreview.jsx:64 | A testimonial without a role is written with "Customer". |
| CodePreview.GenerateCode | src/components/CodePreview.jsx:6-34 | The effect's `+=` sequence, including the loop over the components, builds exactly `Code(components)`. |
| CodePreview.SnippetsStep | src/components/CodePreview.jsx:23-25 | Each loop iteration appends the next component's snippet. |
| CodePreview.SnippetsLast | src/components/CodePreview.jsx:23-25 | The snippets of a list end with its last component's snippet. |
| CodePreview.Code | src/components/CodePreview.jsx:6-34 | The code is `// No components generated yet` exactly for the empty list. |
| CodePreview.CodeFrame | src/components/CodePreview.jsx:13-31 | A non-empty list's code starts with the fixed header and ends with the fixed footer. |
| CodePreview.SnippetsAppend | src/components/CodePreview.jsx:23-25 | The snippets of a joined list are the snippets of its parts one after the other, so they come in list order. |
| CodePreview.SnippetsContain | src/components/CodePreview.jsx:23-25 | Whatever one component's snippet contains, the snippets of the list contain. |
| CodePreview.CodeContains | src/components/CodePreview.jsx:17-26 | Whatever a component's snippet contains (at indent 4 when alone, 6 in the wrapper), the stored code contains. |
| CodePreview.UnknownTypeEmitted | src/components/CodePreview.jsx:66-67 | An unknown type is written as the single line `<indent><!-- Unknown component type: T -->`. |
| Preview.ButtonSlotsEmitted | src/components/CodePreview.jsx:43 | The button's slot text in the live template is written into its snippet. |
| Preview.InputSlotsEmitted | src/components/CodePreview.jsx:46 | The same for the input. |
| Preview.CardSlotsEmitted | src/components/CodePreview.jsx:49 | The same for the card. |
| Preview.NavbarSlotsEmitted | src/components/CodePreview.jsx:52 | The same for the navbar. |
| Preview.FormSlotsEmitted | src/components/CodePreview.jsx:55 | The same for the form. |
| Preview.HeroSlotsEmitted | src/components/CodePreview.jsx:58 | The same for the hero. |
| Preview.TestimonialSlotsEmitted | src/components/CodePreview.jsx:64 | The same for the testimonial. |
| Preview.KindSlotsEmitted | src/components/CodePreview.jsx:41-64 | For every kind, both panels replace a null or empty prop by the same default, so every slot the template shows is in the snippet. |
| Preview.SnippetMatchesTemplate | src/components/CodePreview.jsx:41-67 | A descriptor the page renders has every slot text of its view in its snippet. One it renders as nothing is written as the unknown-type comment. |
| Preview.CodeShowsEverySlot | src/components/CodePreview.jsx:17-26 | The stored code contains every slot text of every rendered descriptor. |
| Preview.ParsedPreviewsAgree | src/components/CodePreview.jsx:6-34 | For the list parsed from the prompt the preview shows (that is, after Generate and before any further edit of the prompt), the code panel contains every slot text the live preview shows. |
| Preview.ParsedTestimonialsEmitCustomer | src/components/CodePreview.jsx:64 | The extractor never sets a role, so every testimonial snippet of a parsed prompt, and the stored code, writes "Customer". |

## Where the code and its documentation differ

The model follows the code.

The prompt box of `src/App.jsx` (line 119) suggests this input:

    Create a navbar with title 'My App', a hero section with title 'Welcome'
    and subtitle 'This is my awesome site', and a button with label 'Get Started'

The extractor does not give the hero what the example asks for. After "hero"
comes a single space and "section", which is neither a property name joined by
two spaces nor `with`/`having`. So the pattern never matches after the only
occurrence of "hero", and the hero's title, subtitle and button text are all
null. The live preview then shows "Welcome to our site" and the other hero
defaults, not "Welcome" and "This is my awesome site".

- `Parsing.UnjoinedHeroIsEmpty` states the null props for every prompt in
  which "hero" occurs only this way.
- `GeneratedUI.UnjoinedHeroShowsDefaults` states the defaults it shows.
- The same reading of the definitions gives the navbar the title "My App"
  and the button the label "Get Started". The descriptors come in the fixed
  order button, navbar, hero. These three values are not stated as lemmas
  about this literal prompt.

## Left out

- React state and the effect lifecycle (`useState`, `useEffect`,
  `setComponents`, `setCode`). The effects are modelled as the values they
  compute. In the app the live preview re-parses the current prompt while the
  code panel shows the list stored by the last Generate of a non-blank
  prompt, so the two panels can differ after the prompt is edited; the model
  relates the panels only for the same list.
- The simulated loading delay and the `isGenerating` flag in
  `handleGenerateUI`: timing and UI plumbing.
- The JSX markup and CSS classes of the templates and of the App layout. The
  templates are modelled as the texts they display (`GeneratedUI.View`). The
  emitted snippets keep their fixed lines verbatim.
- The clipboard write of `CodePreview`, the DOM mount in `src/main.jsx`, and
  `ThemeToggle`: browser I/O. ThemeToggle is not part of this model.
- A null `components` argument of `CodePreview` (`!components`). The list is
  always an array here, and App always passes one.
- Property lookup through the object prototype. A `props` object asked for
  `constructor` finds a function, and `templates[component.type]` finds one
  for a type such as "toString" or "constructor". Props are a finite map
  with null for a missing key, and `Template` knows only the eight kinds, so
  such a type is not rendered here. In the source it would be called as a
  template.
- `props.links` of the navbar template. No code path sets it, so the default
  links are always shown.
- Strings are sequences of code points, not UTF-16 code units: `charAt(0)`
  of an author outside the Basic Multilingual Plane is not modelled.
- Unicode case folding: `toLowerCase` is modelled on ASCII letters only.
  This loses nothing for the trigger words.
  - The only other characters that lower-case to ASCII letters are the Kelvin sign (to "k") and
    "İ" (to "i" and a combining dot).
  - No trigger word contains "k", and an "i" obtained this way is always followed by the combining
    dot, so neither can complete a trigger word.
  - The `i` flag of a non-Unicode regular expression never folds a non-ASCII character onto an
    ASCII one.
- Whitespace for `\s` and `trim` is the full ECMAScript WhiteSpace and
  LineTerminator set, not only ASCII.
- GeneratedUI.ExtractPropertyAgrees: states the agreement only for property
  names that start with a non-space character. Every name the extractor uses
  is such a word.
- Preview.KindSlotsEmitted: compares only the slot texts. The navbar's links
  and the gallery's tiles are written as JSX expressions
  (`['Home', 'About', 'Contact'].map(...)`) that the code text does not spell
  out. The testimonial's initial is not emitted at all.
- CodePreview.GenerateComponentCode: states only that a snippet starts with its
  indentation and ends with a line break, not that every line does. A
  property value extracted from a multi-line prompt may itself contain line
  breaks, which are inserted verbatim.
