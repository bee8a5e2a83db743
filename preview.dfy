/** The two views of one descriptor list: the live templates of
    `GeneratedUI` and the code text of `CodePreview`. */
module Preview {
  import opened Js
  import opened Descriptors
  import opened GeneratedUI
  import opened CodePreview
  import App
  import Parsing

  /** The slot texts of the view of kind `k` all stand in its snippet. */
  predicate SlotsEmitted(props: Props, k: Kind, n: nat)
  {
    forall t :: t in Slots(KindView(props, k)) ==> Contains(Indented(n, KindLines(props, k)), t)
  }

  lemma ButtonSlotsEmitted(props: Props, n: nat)
    ensures SlotsEmitted(props, Button, n)
  {
    ButtonViewSlots(props);
    ButtonWritten(props, n);
  }

  lemma InputSlotsEmitted(props: Props, n: nat)
    ensures SlotsEmitted(props, Input, n)
  {
    InputViewSlots(props);
    InputWritten(props, n);
  }

  lemma CardSlotsEmitted(props: Props, n: nat)
    ensures SlotsEmitted(props, Card, n)
  {
    CardViewSlots(props);
    CardWritten(props, n);
  }

  lemma NavbarSlotsEmitted(props: Props, n: nat)
    ensures SlotsEmitted(props, Navbar, n)
  {
    NavbarViewSlots(props);
    NavbarWritten(props, n);
  }

  lemma FormSlotsEmitted(props: Props, n: nat)
    ensures SlotsEmitted(props, Form, n)
  {
    FormViewSlots(props);
    FormWritten(props, n);
  }

  lemma HeroSlotsEmitted(props: Props, n: nat)
    ensures SlotsEmitted(props, Hero, n)
  {
    HeroViewSlots(props);
    HeroWritten(props, n);
  }

  lemma TestimonialSlotsEmitted(props: Props, n: nat)
    ensures SlotsEmitted(props, Testimonial, n)
  {
    TestimonialViewSlots(props);
    TestimonialWritten(props, n);
  }

  /** Every slot text the live template of kind `k` shows is written into the
      emitted snippet: both sides replace an absent, null or empty property
      by the same default. */
  lemma KindSlotsEmitted(props: Props, k: Kind, n: nat)
    ensures SlotsEmitted(props, k, n)
  {
    match k
    case Button => ButtonSlotsEmitted(props, n);
    case Input => InputSlotsEmitted(props, n);
    case Card => CardSlotsEmitted(props, n);
    case Navbar => NavbarSlotsEmitted(props, n);
    case Form => FormSlotsEmitted(props, n);
    case Hero => HeroSlotsEmitted(props, n);
    case Gallery =>
    case Testimonial => TestimonialSlotsEmitted(props, n);
  }

  /** A descriptor the live preview renders has every slot text of its view
      in its code snippet; one it renders as nothing is written as a comment
      naming its type. */
  lemma SnippetMatchesTemplate(c: Component, n: nat)
    ensures Template(c).Some? ==>
      forall t :: t in Slots(Template(c).value) ==> Contains(GenerateComponentCode(c, n), t)
    ensures Template(c).None? ==>
      GenerateComponentCode(c, n) == Spaces(n) + UnknownLine(c.typ) + "\n"
  {
    match ParseKind(c.typ)
    case None =>
      UnknownTypeEmitted(c, n);
    case Some(k) =>
      KindSlotsEmitted(c.props, k, n);
  }

  /** The stored code shows every slot text of every rendered descriptor. */
  lemma CodeShowsEverySlot(cs: seq<Component>)
    ensures forall i, t :: 0 <= i < |cs| && Template(cs[i]).Some? && t in Slots(Template(cs[i]).value) ==>
      Contains(Code(cs), t)
  {
    forall i, t | 0 <= i < |cs| && Template(cs[i]).Some? && t in Slots(Template(cs[i]).value)
      ensures Contains(Code(cs), t)
    {
      SnippetMatchesTemplate(cs[i], IndentOf(cs));
      CodeContains(cs, i, t);
    }
  }

  /** For the list the extractor builds, the code panel shows every slot text
      of every view of the live preview. */
  lemma ParsedPreviewsAgree(p: string)
    ensures forall i, t :: 0 <= i < |Render(App.Components(p))| && t in Slots(Render(App.Components(p))[i]) ==>
      Contains(Code(App.Components(p)), t)
  {
    var cs := App.Components(p);
    ParsedAllRendered(p);
    CodeShowsEverySlot(cs);
  }

  /** The extractor never sets a role, so every testimonial snippet of a
      parsed prompt writes the default role "Customer", and so does the
      stored code. */
  lemma ParsedTestimonialsEmitCustomer(p: string)
    ensures forall c, n: nat :: c in App.Components(p) && c.typ == "testimonial" ==>
      Contains(GenerateComponentCode(c, n), "Customer")
    ensures (exists c :: c in App.Components(p) && c.typ == "testimonial") ==>
      Contains(Code(App.Components(p)), "Customer")
  {
    var cs := App.Components(p);
    Parsing.RoleNeverSet(p);
    forall c, n: nat | c in cs && c.typ == "testimonial"
      ensures Contains(GenerateComponentCode(c, n), "Customer")
    {
      DefaultRoleEmitted(c, n);
    }
    if c :| c in cs && c.typ == "testimonial" {
      var i :| 0 <= i < |cs| && cs[i] == c;
      DefaultRoleEmitted(c, IndentOf(cs));
      CodeContains(cs, i, "Customer");
    }
  }
}
