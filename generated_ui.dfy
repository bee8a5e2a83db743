/** The preview component `GeneratedUI`: its own copy of the extractor, run by
    an effect whenever the prompt changes, and the templates that render each
    descriptor, replacing a null or empty property by a fixed default.

    The copy of `extractProperty` here is modelled through the regex engine's
    backtracking reference (`RefMatch`) and the copy in `App` through the
    hand-written matcher, so `ExtractPropertyAgrees` is the proof that the two
    copies compute the same thing. */
module GeneratedUI {
  import opened Js
  import opened Pattern
  import opened Descriptors
  import App
  import Parsing

  /** `extractProperty(prompt, componentType, propName)` of this component. */
  function ExtractProperty(prompt: string, componentType: string, propName: string): (r: Option<string>)
    ensures r.Some? <==> RefMatch(prompt, componentType, propName).Some?
    ensures r.Some? ==> App.Trimmed(r.value)
  {
    var m := RefMatch(prompt, componentType, propName);
    if m.Some? then Some(Trim(m.value)) else None
  }

  /** A property name that starts with a non-space character. */
  predicate Word(w: string)
  {
    w != [] && !IsSpace(w[0])
  }

  /** Both copies of `extractProperty` return the same trimmed capture or null,
      for every property name that starts with a non-space character (every
      name the extractor uses is a lower-case word). */
  lemma ExtractPropertyAgrees(prompt: string, componentType: string, propName: string)
    requires Word(propName)
    ensures ExtractProperty(prompt, componentType, propName) == App.ExtractProperty(prompt, componentType, propName)
  {
    RefMatchIsMatch(prompt, componentType, propName);
  }

  /** `a || b` over this component's extractor. */
  function Alias(prompt: string, kind: string, a: string, b: string): Option<string>
  {
    Or(ExtractProperty(prompt, kind, a), ExtractProperty(prompt, kind, b))
  }

  // The values each detection step looks up agree with those of `parsePrompt`.

  lemma ButtonValues(p: string)
    ensures Alias(p, "button", "label", "text") == App.Alias(p, "button", "label", "text")
  {
    assert Word("label") && Word("text");
    ExtractPropertyAgrees(p, "button", "label");
    ExtractPropertyAgrees(p, "button", "text");
  }

  lemma InputValues(p: string)
    ensures ExtractProperty(p, "input", "placeholder") == App.ExtractProperty(p, "input", "placeholder")
  {
    assert Word("placeholder");
    ExtractPropertyAgrees(p, "input", "placeholder");
  }

  lemma CardValues(p: string)
    ensures ExtractProperty(p, "card", "title") == App.ExtractProperty(p, "card", "title")
    ensures Alias(p, "card", "content", "text") == App.Alias(p, "card", "content", "text")
  {
    assert Word("title") && Word("content") && Word("text");
    ExtractPropertyAgrees(p, "card", "title");
    ExtractPropertyAgrees(p, "card", "content");
    ExtractPropertyAgrees(p, "card", "text");
  }

  lemma NavbarValues(p: string)
    ensures ExtractProperty(p, "navbar", "title") == App.ExtractProperty(p, "navbar", "title")
  {
    assert Word("title");
    ExtractPropertyAgrees(p, "navbar", "title");
  }

  lemma FormValues(p: string)
    ensures Alias(p, "form", "submit", "button") == App.Alias(p, "form", "submit", "button")
  {
    assert Word("submit") && Word("button");
    ExtractPropertyAgrees(p, "form", "submit");
    ExtractPropertyAgrees(p, "form", "button");
  }

  lemma HeroValues(p: string)
    ensures ExtractProperty(p, "hero", "title") == App.ExtractProperty(p, "hero", "title")
    ensures ExtractProperty(p, "hero", "subtitle") == App.ExtractProperty(p, "hero", "subtitle")
    ensures ExtractProperty(p, "hero", "button") == App.ExtractProperty(p, "hero", "button")
  {
    assert Word("title") && Word("subtitle") && Word("button");
    ExtractPropertyAgrees(p, "hero", "title");
    ExtractPropertyAgrees(p, "hero", "subtitle");
    ExtractPropertyAgrees(p, "hero", "button");
  }

  lemma TestimonialValues(p: string)
    ensures Alias(p, "testimonial", "quote", "text") == App.Alias(p, "testimonial", "quote", "text")
    ensures Alias(p, "testimonial", "author", "name") == App.Alias(p, "testimonial", "author", "name")
  {
    assert Word("quote") && Word("text") && Word("author") && Word("name");
    ExtractPropertyAgrees(p, "testimonial", "quote");
    ExtractPropertyAgrees(p, "testimonial", "text");
    ExtractPropertyAgrees(p, "testimonial", "author");
    ExtractPropertyAgrees(p, "testimonial", "name");
  }

  // Proof helpers: each step of `parsePrompt`, unfolded once so that the
  // Detect* lemmas below need not unfold `App.UpTo` themselves.

  lemma ButtonStep(p: string, cs: seq<Component>)
    requires cs == App.UpTo(p, 0)
    ensures App.UpTo(p, 1) == if Contains(LowerStr(p), "button") then cs + [Component("button", map["label" := App.Alias(p, "button", "label", "text")])] else cs
  {
  }

  lemma InputStep(p: string, cs: seq<Component>)
    requires cs == App.UpTo(p, 1)
    ensures App.UpTo(p, 2) == if Contains(LowerStr(p), "input") then cs + [Component("input", map["placeholder" := App.ExtractProperty(p, "input", "placeholder")])] else cs
  {
  }

  lemma CardStep(p: string, cs: seq<Component>)
    requires cs == App.UpTo(p, 2)
    ensures App.UpTo(p, 3) == if Contains(LowerStr(p), "card") then cs + [Component("card", map["title" := App.ExtractProperty(p, "card", "title"), "content" := App.Alias(p, "card", "content", "text")])] else cs
  {
  }

  lemma NavbarStep(p: string, cs: seq<Component>)
    requires cs == App.UpTo(p, 3)
    ensures App.UpTo(p, 4) == if Contains(LowerStr(p), "navbar") || Contains(LowerStr(p), "navigation") then cs + [Component("navbar", map["title" := App.ExtractProperty(p, "navbar", "title")])] else cs
  {
  }

  lemma FormStep(p: string, cs: seq<Component>)
    requires cs == App.UpTo(p, 4)
    ensures App.UpTo(p, 5) == if Contains(LowerStr(p), "form") then cs + [Component("form", map["submitText" := App.Alias(p, "form", "submit", "button")])] else cs
  {
  }

  lemma HeroStep(p: string, cs: seq<Component>)
    requires cs == App.UpTo(p, 5)
    ensures App.UpTo(p, 6) == if Contains(LowerStr(p), "hero") then cs + [Component("hero", map["title" := App.ExtractProperty(p, "hero", "title"), "subtitle" := App.ExtractProperty(p, "hero", "subtitle"), "buttonText" := App.ExtractProperty(p, "hero", "button")])] else cs
  {
  }

  lemma TestimonialStep(p: string, cs: seq<Component>)
    requires cs == App.UpTo(p, 7)
    ensures App.UpTo(p, 8) == if Contains(LowerStr(p), "testimonial") || Contains(LowerStr(p), "review") then cs + [Component("testimonial", map["quote" := App.Alias(p, "testimonial", "quote", "text"), "author" := App.Alias(p, "testimonial", "author", "name")])] else cs
  {
  }

  // The eight detection steps of the effect, each proved to extend the
  // descriptors of the steps before it exactly as `parsePrompt` does.

  method DetectButton(prompt: string, newComponents: seq<Component>) returns (r: seq<Component>)
    requires newComponents == App.UpTo(prompt, 0)
    ensures r == App.UpTo(prompt, 1)
  {
    ButtonStep(prompt, newComponents);
    ButtonValues(prompt);
    r := newComponents;
    if Contains(LowerStr(prompt), "button") {
      var labelText := Alias(prompt, "button", "label", "text");
      r := r + [Component("button", map["label" := labelText])];
    }
  }

  method DetectInput(prompt: string, newComponents: seq<Component>) returns (r: seq<Component>)
    requires newComponents == App.UpTo(prompt, 1)
    ensures r == App.UpTo(prompt, 2)
  {
    InputStep(prompt, newComponents);
    InputValues(prompt);
    r := newComponents;
    if Contains(LowerStr(prompt), "input") {
      var placeholder := ExtractProperty(prompt, "input", "placeholder");
      r := r + [Component("input", map["placeholder" := placeholder])];
    }
  }

  method DetectCard(prompt: string, newComponents: seq<Component>) returns (r: seq<Component>)
    requires newComponents == App.UpTo(prompt, 2)
    ensures r == App.UpTo(prompt, 3)
  {
    CardStep(prompt, newComponents);
    CardValues(prompt);
    r := newComponents;
    if Contains(LowerStr(prompt), "card") {
      var title := ExtractProperty(prompt, "card", "title");
      var content := Alias(prompt, "card", "content", "text");
      r := r + [Component("card", map["title" := title, "content" := content])];
    }
  }

  method DetectNavbar(prompt: string, newComponents: seq<Component>) returns (r: seq<Component>)
    requires newComponents == App.UpTo(prompt, 3)
    ensures r == App.UpTo(prompt, 4)
  {
    NavbarStep(prompt, newComponents);
    NavbarValues(prompt);
    r := newComponents;
    if Contains(LowerStr(prompt), "navbar") || Contains(LowerStr(prompt), "navigation") {
      var title := ExtractProperty(prompt, "navbar", "title");
      r := r + [Component("navbar", map["title" := title])];
    }
  }

  method DetectForm(prompt: string, newComponents: seq<Component>) returns (r: seq<Component>)
    requires newComponents == App.UpTo(prompt, 4)
    ensures r == App.UpTo(prompt, 5)
  {
    FormStep(prompt, newComponents);
    FormValues(prompt);
    r := newComponents;
    if Contains(LowerStr(prompt), "form") {
      var submitText := Alias(prompt, "form", "submit", "button");
      r := r + [Component("form", map["submitText" := submitText])];
    }
  }

  method DetectHero(prompt: string, newComponents: seq<Component>) returns (r: seq<Component>)
    requires newComponents == App.UpTo(prompt, 5)
    ensures r == App.UpTo(prompt, 6)
  {
    HeroStep(prompt, newComponents);
    HeroValues(prompt);
    r := newComponents;
    if Contains(LowerStr(prompt), "hero") {
      var title := ExtractProperty(prompt, "hero", "title");
      var subtitle := ExtractProperty(prompt, "hero", "subtitle");
      var buttonText := ExtractProperty(prompt, "hero", "button");
      r := r + [Component("hero", map["title" := title, "subtitle" := subtitle, "buttonText" := buttonText])];
    }
  }

  method DetectGallery(prompt: string, newComponents: seq<Component>) returns (r: seq<Component>)
    requires newComponents == App.UpTo(prompt, 6)
    ensures r == App.UpTo(prompt, 7)
  {
    r := newComponents;
    if Contains(LowerStr(prompt), "gallery") || Contains(LowerStr(prompt), "image") {
      r := r + [Component("gallery", map[])];
    }
  }

  method DetectTestimonial(prompt: string, newComponents: seq<Component>) returns (r: seq<Component>)
    requires newComponents == App.UpTo(prompt, 7)
    ensures r == App.UpTo(prompt, 8)
  {
    TestimonialStep(prompt, newComponents);
    TestimonialValues(prompt);
    r := newComponents;
    if Contains(LowerStr(prompt), "testimonial") || Contains(LowerStr(prompt), "review") {
      var quote := Alias(prompt, "testimonial", "quote", "text");
      var author := Alias(prompt, "testimonial", "author", "name");
      r := r + [Component("testimonial", map["quote" := quote, "author" := author])];
    }
  }

  /** The empty prompt has no descriptors under `parsePrompt` either. */
  lemma EmptyPrompt()
    ensures App.Components("") == []
  {
    assert LowerStr("") == [];
    forall k: Kind
      ensures !App.Triggered([], k)
    {
    }
    App.DetectedNone([], Order);
    assert AllSpace("");
  }

  /** The effect: `[]` for the empty prompt, otherwise the same detection and
      fallback as `parsePrompt`, so the list it stores is `parsePrompt(prompt)`
      for every prompt. */
  method ComputeComponents(prompt: string) returns (components: seq<Component>)
    ensures components == App.Components(prompt)
  {
    if prompt == "" {
      EmptyPrompt();
      return [];
    }
    var newComponents := [];
    newComponents := DetectButton(prompt, newComponents);
    newComponents := DetectInput(prompt, newComponents);
    newComponents := DetectCard(prompt, newComponents);
    newComponents := DetectNavbar(prompt, newComponents);
    newComponents := DetectForm(prompt, newComponents);
    newComponents := DetectHero(prompt, newComponents);
    newComponents := DetectGallery(prompt, newComponents);
    newComponents := DetectTestimonial(prompt, newComponents);
    App.FallbackStep(prompt, newComponents);
    if |newComponents| == 0 && |Trim(prompt)| > 0 {
      if Contains(LowerStr(prompt), "welcome") || Contains(LowerStr(prompt), "landing") {
        newComponents := newComponents + [Component("hero", map["title" := Some("Welcome"), "subtitle" := Some(prompt)])];
      } else {
        newComponents := newComponents + [Component("card", map["title" := Some("Generated Content"), "content" := Some(prompt)])];
      }
    }
    components := newComponents;
  }

  // ---------------------------------------------------------------------
  // Templates

  /** What a template shows: the text of every slot after the default rule. */
  datatype View =
    | ButtonView(labelText: string)
    | InputView(placeholder: string)
    | CardView(title: string, content: string)
    | NavbarView(title: string, links: seq<string>)
    | FormView(submitText: string)
    | HeroView(title: string, subtitle: string, buttonText: string)
    | GalleryView(tiles: seq<string>)
    | TestimonialView(quote: string, initial: char, author: string, role: string)

  /** The navbar's links: `props.links` is never a string list here, so the
      default list is always shown. */
  const NavbarLinks: seq<string> := ["Home", "About", "Contact"]

  const GalleryTiles: seq<string> := ["Image 1", "Image 2", "Image 3"]

  /** The property each slot reads and the default that replaces a null,
      missing or empty value, slot by slot in display order. */
  function Fields(k: Kind): seq<(string, string)>
  {
    match k
    case Button => [("label", "Button")]
    case Input => [("placeholder", "Enter text...")]
    case Card => [("title", "Card Title"), ("content", "Card content goes here")]
    case Navbar => [("title", "Site Name")]
    case Form => [("submitText", "Submit")]
    case Hero => [("title", "Welcome to our site"), ("subtitle", "This is a hero section for your website"),
                  ("buttonText", "Get Started")]
    case Gallery => []
    case Testimonial => [("quote", "This product is amazing! I would definitely recommend it to anyone."),
                         ("author", "Jane Doe"), ("role", "Customer")]
  }

  /** The texts of a view's property slots, in display order. */
  function Slots(v: View): seq<string>
  {
    match v
    case ButtonView(l) => [l]
    case InputView(ph) => [ph]
    case CardView(t, c) => [t, c]
    case NavbarView(t, _) => [t]
    case FormView(s) => [s]
    case HeroView(t, s, b) => [t, s, b]
    case GalleryView(_) => []
    case TestimonialView(q, _, a, r) => [q, a, r]
  }

  /** Every text a view displays, in display order (the initial excepted):
      its slots, then the navbar's links or the gallery's tiles. */
  function Texts(v: View): seq<string>
  {
    Slots(v) + (if v.NavbarView? then v.links else if v.GalleryView? then v.tiles else [])
  }

  /** No slot is ever blank, and a testimonial's initial is the first letter
      of the author it shows. */
  predicate Displayable(v: View)
  {
    && (forall j :: 0 <= j < |Texts(v)| ==> Texts(v)[j] != "")
    && (v.TestimonialView? ==> v.author != "" && v.initial == v.author[0])
  }

  /** The template of kind `k` applied to `props`. */
  function KindView(props: Props, k: Kind): (v: View)
    ensures |Slots(v)| == |Fields(k)|
  {
    match k
    case Button => ButtonView(OrDefault(Get(props, "label"), "Button"))
    case Input => InputView(OrDefault(Get(props, "placeholder"), "Enter text..."))
    case Card => CardView(OrDefault(Get(props, "title"), "Card Title"),
                          OrDefault(Get(props, "content"), "Card content goes here"))
    case Navbar => NavbarView(OrDefault(Get(props, "title"), "Site Name"), NavbarLinks)
    case Form => FormView(OrDefault(Get(props, "submitText"), "Submit"))
    case Hero => HeroView(OrDefault(Get(props, "title"), "Welcome to our site"),
                          OrDefault(Get(props, "subtitle"), "This is a hero section for your website"),
                          OrDefault(Get(props, "buttonText"), "Get Started"))
    case Gallery => GalleryView(GalleryTiles)
    case Testimonial =>
      var author := Get(props, "author");
      TestimonialView(OrDefault(Get(props, "quote"), "This product is amazing! I would definitely recommend it to anyone."),
                      if Truthy(author) then author.value[0] else 'J',
                      OrDefault(author, "Jane Doe"),
                      OrDefault(Get(props, "role"), "Customer"))
  }

  /** `templates[component.type]` applied to the props, or None (rendered as
      nothing) for a type without a template. */
  function Template(c: Component): (r: Option<View>)
    ensures r.Some? <==> ParseKind(c.typ).Some?
  {
    match ParseKind(c.typ)
    case None => None
    case Some(k) => Some(KindView(c.props, k))
  }

  /** Exactly the eight kind names have a template. */
  lemma TemplateDefined(c: Component)
    ensures Template(c).Some? <==> exists k :: KindName(k) == c.typ
  {
    if ParseKind(c.typ).None? {
      forall k | true
        ensures KindName(k) != c.typ
      {
        ParseKindName(k);
      }
    }
  }

  lemma KindViewDisplayable(props: Props, k: Kind)
    ensures Displayable(KindView(props, k))
  {
    var v := KindView(props, k);
    match k
    case Button =>
      assert Texts(v) == [v.labelText];
    case Input =>
      assert Texts(v) == [v.placeholder];
    case Card =>
      assert Texts(v) == [v.title, v.content];
    case Navbar =>
      assert Texts(v) == [v.title] + NavbarLinks;
      assert forall j :: 0 <= j < |NavbarLinks| ==> NavbarLinks[j] != "";
    case Form =>
      assert Texts(v) == [v.submitText];
    case Hero =>
      assert Texts(v) == [v.title, v.subtitle, v.buttonText];
    case Gallery =>
      assert Texts(v) == GalleryTiles;
      assert forall j :: 0 <= j < |GalleryTiles| ==> GalleryTiles[j] != "";
    case Testimonial =>
      assert Texts(v) == [v.quote, v.author, v.role];
  }

  /** The button shows exactly one slot: the label or "Button". */
  lemma ButtonViewSlots(props: Props)
    ensures Slots(KindView(props, Button)) == [OrDefault(Get(props, "label"), "Button")]
  {
  }

  /** The input shows exactly one slot: the placeholder or its default. */
  lemma InputViewSlots(props: Props)
    ensures Slots(KindView(props, Input)) == [OrDefault(Get(props, "placeholder"), "Enter text...")]
  {
  }

  /** The card shows the title, then the content, each the property or its
      default. */
  lemma CardViewSlots(props: Props)
    ensures Slots(KindView(props, Card))
      == [OrDefault(Get(props, "title"), "Card Title"),
          OrDefault(Get(props, "content"), "Card content goes here")]
  {
  }

  /** The navbar shows exactly one slot: the title or "Site Name". */
  lemma NavbarViewSlots(props: Props)
    ensures Slots(KindView(props, Navbar)) == [OrDefault(Get(props, "title"), "Site Name")]
  {
  }

  /** The form shows exactly one slot: the submit text or "Submit". */
  lemma FormViewSlots(props: Props)
    ensures Slots(KindView(props, Form)) == [OrDefault(Get(props, "submitText"), "Submit")]
  {
  }

  /** The hero shows the title, the subtitle and the button text, in that
      order, each the property or its default. */
  lemma HeroViewSlots(props: Props)
    ensures Slots(KindView(props, Hero))
      == [OrDefault(Get(props, "title"), "Welcome to our site"),
          OrDefault(Get(props, "subtitle"), "This is a hero section for your website"),
          OrDefault(Get(props, "buttonText"), "Get Started")]
  {
  }

  /** The testimonial shows its quote, its author and its role, in that
      order, each the property or its default. */
  lemma TestimonialViewSlots(props: Props)
    ensures Slots(KindView(props, Testimonial))
      == [OrDefault(Get(props, "quote"), "This product is amazing! I would definitely recommend it to anyone."),
          OrDefault(Get(props, "author"), "Jane Doe"),
          OrDefault(Get(props, "role"), "Customer")]
  {
  }

  /** Whatever the props hold, no slot a template shows is blank and a
      testimonial's initial is the first letter of its author. */
  lemma TemplateDisplayable(c: Component)
    ensures Template(c).Some? ==> Displayable(Template(c).value)
  {
    if ParseKind(c.typ).Some? {
      KindViewDisplayable(c.props, ParseKind(c.typ).value);
    }
  }

  /** Slot by slot, the template of kind `k` shows the property named in
      `Fields` when it is a non-empty string and that slot's default
      otherwise. */
  lemma KindFields(props: Props, k: Kind)
    ensures var v := KindView(props, k);
      && |Slots(v)| == |Fields(k)|
      && (forall j :: 0 <= j < |Fields(k)| ==>
            Slots(v)[j] == OrDefault(Get(props, Fields(k)[j].0), Fields(k)[j].1))
  {
    match k
    case Button =>
    case Input =>
    case Card =>
    case Navbar =>
    case Form =>
    case Hero =>
    case Gallery =>
    case Testimonial =>
  }

  /** A hero descriptor whose every property is null, as the extractor gives
      for `a hero section with title ...`, shows all of the template's
      defaults ("Welcome to our site" and so on). */
  lemma UnjoinedHeroShowsDefaults(p: string)
    requires forall st :: 0 <= st <= |p| && WordAt(p, st, "hero") ==> Unjoined(p, st + 4)
    ensures var v := KindView(App.Descriptor(p, Hero).props, Hero);
      && |Slots(v)| == |Fields(Hero)|
      && forall j :: 0 <= j < |Fields(Hero)| ==> Slots(v)[j] == Fields(Hero)[j].1
  {
    Parsing.UnjoinedHeroIsEmpty(p);
    KindFields(App.Descriptor(p, Hero).props, Hero);
  }

  /** A template shows its slots, then the navbar its links or the gallery
      its three tiles. */
  lemma KindTexts(props: Props, k: Kind)
    ensures Texts(KindView(props, k))
      == Slots(KindView(props, k)) + (if k == Navbar then NavbarLinks else if k == Gallery then GalleryTiles else [])
  {
  }

  /** A descriptor whose type names a kind is shown by that kind's template. */
  lemma TemplateFields(c: Component, k: Kind)
    requires KindName(k) == c.typ
    ensures Template(c) == Some(KindView(c.props, k))
  {
    ParseKindName(k);
  }

  /** The page: one view per descriptor whose type has a template (the others
      render as nothing), in list order. */
  function Render(cs: seq<Component>): (vs: seq<View>)
    ensures |vs| <= |cs|
    ensures forall v :: v in vs ==> Displayable(v)
  {
    if cs == [] then []
    else
      TemplateDisplayable(cs[0]);
      var t := Template(cs[0]);
      (if t.Some? then [t.value] else []) + Render(cs[1..])
  }

  /** The empty-state message is shown exactly when the list is empty. */
  predicate ShowsEmptyState(cs: seq<Component>)
  {
    |cs| == 0
  }

  /** Every view of the page comes from a descriptor of the list. */
  lemma {:induction false} RenderFromList(cs: seq<Component>)
    ensures forall v :: v in Render(cs) ==> exists c :: c in cs && Template(c) == Some(v)
  {
    if cs != [] {
      RenderFromList(cs[1..]);
      forall v | v in Render(cs)
        ensures exists c :: c in cs && Template(c) == Some(v)
      {
        if v !in Render(cs[1..]) {
          assert Template(cs[0]) == Some(v);
        } else {
          var c :| c in cs[1..] && Template(c) == Some(v);
          assert c in cs;
        }
      }
    }
  }

  /** A list whose types all have templates gets one view per descriptor, in
      order. */
  lemma {:induction false} RenderAll(cs: seq<Component>)
    requires forall i :: 0 <= i < |cs| ==> Template(cs[i]).Some?
    ensures |Render(cs)| == |cs|
    ensures forall i :: 0 <= i < |cs| ==> Render(cs)[i] == Template(cs[i]).value
  {
    if cs != [] {
      RenderAll(cs[1..]);
      assert Render(cs) == [Template(cs[0]).value] + Render(cs[1..]);
    }
  }

  /** Every descriptor the extractor builds has a template, so the page shows
      one view per descriptor, in list order. */
  lemma ParsedAllRendered(p: string)
    ensures |Render(App.Components(p))| == |App.Components(p)|
    ensures forall i :: 0 <= i < |App.Components(p)| ==>
      Template(App.Components(p)[i]) == Some(Render(App.Components(p))[i])
  {
    var cs := App.Components(p);
    Parsing.KindsLength(p);
    Parsing.KindsTypes(p);
    forall i | 0 <= i < |cs|
      ensures Template(cs[i]).Some?
    {
      TemplateFields(cs[i], Parsing.KindsOf(p)[i]);
    }
    RenderAll(cs);
  }

  /** Only the testimonial template has a role, and it falls back to
      "Customer" when the descriptor has no role. */
  lemma TestimonialRole(c: Component)
    requires Template(c).Some? && Template(c).value.TestimonialView?
    ensures c.typ == "testimonial"
    ensures "role" !in c.props ==> Template(c).value.role == "Customer"
  {
    var k := ParseKind(c.typ).value;
    match k
    case Testimonial =>
  }

  /** The extractor never fills a testimonial's role, so every testimonial of
      a parsed prompt shows the role "Customer". */
  lemma ParsedTestimonialRole(p: string)
    ensures forall v :: v in Render(App.Components(p)) && v.TestimonialView? ==> v.role == "Customer"
  {
    var cs := App.Components(p);
    RenderFromList(cs);
    Parsing.RoleNeverSet(p);
    forall v | v in Render(cs) && v.TestimonialView?
      ensures v.role == "Customer"
    {
      var c :| c in cs && Template(c) == Some(v);
      TestimonialRole(c);
    }
  }

  /** The empty-state message shows exactly for a prompt of whitespace only. */
  lemma EmptyStateIffBlank(p: string)
    ensures ShowsEmptyState(App.Components(p)) <==> AllSpace(p)
  {
    Parsing.BlankIffNoComponents(p);
  }
}
