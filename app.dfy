/** The extractor of `App`: `extractProperty` matches the one pattern and trims
    the capture, and `parsePrompt` appends one descriptor for every kind whose
    trigger words occur in the prompt, in a fixed kind order, or a single
    fallback descriptor when none does.

    `Components` is the specification: the kinds of Order filtered by their
    triggers, each mapped to its descriptor through the property table. The
    method `ParsePrompt` is the source's sequence of conditional pushes and is
    proved to compute it. */
module App {
  import opened Js
  import opened Pattern
  import opened Descriptors

  predicate QuoteFree(v: string)
  {
    forall k :: 0 <= k < |v| ==> !IsQuote(v[k])
  }

  /** No leading or trailing whitespace. */
  predicate Trimmed(v: string)
  {
    v == [] || (!IsSpace(v[0]) && !IsSpace(v[|v| - 1]))
  }

  lemma TrimQuoteFree(v: string)
    requires QuoteFree(v)
    ensures QuoteFree(Trim(v))
  {
    var i: nat :| Occurs(v, i, Trim(v));
    forall k | 0 <= k < |Trim(v)|
      ensures !IsQuote(Trim(v)[k])
    {
      assert Trim(v)[k] == v[i + k];
    }
  }

  /** `extractProperty(prompt, componentType, propName)`: the trimmed capture
      of the leftmost match, or null. */
  function ExtractProperty(prompt: string, componentType: string, propName: string): (r: Option<string>)
    ensures r.Some? <==> Match(prompt, componentType, propName).Some?
    ensures r.Some? ==> Trimmed(r.value)
  {
    var m := Match(prompt, componentType, propName);
    if m.Some? then Some(Trim(m.value)) else None
  }

  /** A property is found exactly when the pattern matches; its value is the
      trimmed capture, which has no quote character, and both the kind word
      and the property name occur in the lower-cased prompt. */
  lemma ExtractPropertyMeaning(prompt: string, componentType: string, propName: string)
    ensures var r := ExtractProperty(prompt, componentType, propName);
      && (r.Some? <==> Match(prompt, componentType, propName).Some?)
      && (r.Some? ==> r.value == Trim(Match(prompt, componentType, propName).value))
      && (r.Some? ==> QuoteFree(r.value) && Trimmed(r.value))
      && (r.Some? ==> Contains(LowerStr(prompt), componentType) && Contains(LowerStr(prompt), propName))
  {
    MatchNeedsWords(prompt, componentType, propName);
    var m := Match(prompt, componentType, propName);
    if m.Some? {
      TrimQuoteFree(m.value);
    }
  }

  /** `extractProperty(p, kind, a) || extractProperty(p, kind, b)` */
  function Alias(p: string, kind: string, a: string, b: string): Option<string>
  {
    Or(ExtractProperty(p, kind, a), ExtractProperty(p, kind, b))
  }

  /** The trigger words of each kind, looked up in the lower-cased prompt. */
  predicate Triggered(lp: string, k: Kind)
  {
    match k
    case Button => Contains(lp, "button")
    case Input => Contains(lp, "input")
    case Card => Contains(lp, "card")
    case Navbar => Contains(lp, "navbar") || Contains(lp, "navigation")
    case Form => Contains(lp, "form")
    case Hero => Contains(lp, "hero")
    case Gallery => Contains(lp, "gallery") || Contains(lp, "image")
    case Testimonial => Contains(lp, "testimonial") || Contains(lp, "review")
  }

  /** The property table: each kind's keys and the names looked up for them,
      always after the canonical kind word. */
  function PropsFor(p: string, k: Kind): Props
  {
    var n := KindName(k);
    match k
    case Button => map["label" := Alias(p, n, "label", "text")]
    case Input => map["placeholder" := ExtractProperty(p, n, "placeholder")]
    case Card => map["title" := ExtractProperty(p, n, "title"), "content" := Alias(p, n, "content", "text")]
    case Navbar => map["title" := ExtractProperty(p, n, "title")]
    case Form => map["submitText" := Alias(p, n, "submit", "button")]
    case Hero => map["title" := ExtractProperty(p, n, "title"), "subtitle" := ExtractProperty(p, n, "subtitle"),
                     "buttonText" := ExtractProperty(p, n, "button")]
    case Gallery => map[]
    case Testimonial => map["quote" := Alias(p, n, "quote", "text"), "author" := Alias(p, n, "author", "name")]
  }

  function Descriptor(p: string, k: Kind): (c: Component)
    ensures c.typ == KindName(k)
  {
    Component(KindName(k), PropsFor(p, k))
  }

  /** The kinds of ks whose triggers occur in lp, in the order of ks. */
  function Detected(lp: string, ks: seq<Kind>): seq<Kind>
  {
    if ks == [] then []
    else Detected(lp, ks[..|ks| - 1]) + (if Triggered(lp, ks[|ks| - 1]) then [ks[|ks| - 1]] else [])
  }

  /** A kind is detected exactly when it is in ks and triggered. */
  lemma {:induction false} DetectedMembers(lp: string, ks: seq<Kind>)
    ensures forall k :: k in Detected(lp, ks) <==> k in ks && Triggered(lp, k)
  {
    if ks != [] {
      DetectedMembers(lp, ks[..|ks| - 1]);
      assert ks == ks[..|ks| - 1] + [ks[|ks| - 1]];
    }
  }

  /** Nothing is detected when no kind is triggered. */
  lemma {:induction false} DetectedNone(lp: string, ks: seq<Kind>)
    requires forall k :: !Triggered(lp, k)
    ensures Detected(lp, ks) == []
  {
    if ks != [] {
      DetectedNone(lp, ks[..|ks| - 1]);
    }
  }

  function DescribeAll(p: string, ks: seq<Kind>): (cs: seq<Component>)
    ensures |cs| == |ks|
    ensures forall i :: 0 <= i < |ks| ==> cs[i] == Descriptor(p, ks[i])
    ensures forall i :: 0 <= i < |ks| ==> cs[i].typ == KindName(ks[i])
  {
    if ks == [] then [] else DescribeAll(p, ks[..|ks| - 1]) + [Descriptor(p, ks[|ks| - 1])]
  }

  /** The single descriptor of a prompt in which no kind is detected. */
  function Fallback(p: string): Component
  {
    var lp := LowerStr(p);
    if Contains(lp, "welcome") || Contains(lp, "landing") then
      Component("hero", map["title" := Some("Welcome"), "subtitle" := Some(p)])
    else
      Component("card", map["title" := Some("Generated Content"), "content" := Some(p)])
  }

  /** What `parsePrompt(p)` returns. */
  function Components(p: string): (cs: seq<Component>)
    ensures forall i :: 0 <= i < |cs| ==> ParseKind(cs[i].typ).Some?
  {
    var ks := Detected(LowerStr(p), Order);
    if ks != [] then DescribeAll(p, ks)
    else if Trim(p) != [] then [Fallback(p)]
    else []
  }

  lemma OrderLength()
    ensures |Order| == 8 && Order[..8] == Order
  {
  }

  /** The descriptors pushed by the first n steps of `parsePrompt`. */
  function UpTo(p: string, n: nat): seq<Component>
    requires n <= |Order|
  {
    if n == 0 then []
    else if Triggered(LowerStr(p), Order[n - 1]) then UpTo(p, n - 1) + [Descriptor(p, Order[n - 1])]
    else UpTo(p, n - 1)
  }

  /** The first n steps are the descriptors of the kinds detected among the
      first n of Order. */
  lemma {:induction false} UpToDetected(p: string, n: nat)
    requires n <= |Order|
    ensures UpTo(p, n) == DescribeAll(p, Detected(LowerStr(p), Order[..n]))
  {
    if n > 0 {
      UpToDetected(p, n - 1);
      assert Order[..n][..n - 1] == Order[..n - 1];
      var ks := Detected(LowerStr(p), Order[..n - 1]);
      if Triggered(LowerStr(p), Order[n - 1]) {
        assert (ks + [Order[n - 1]])[..|ks|] == ks;
      }
    }
  }

  lemma FallbackStep(p: string, cs: seq<Component>)
    requires cs == UpTo(p, 8)
    ensures var lp := LowerStr(p);
      Components(p) ==
        if |cs| == 0 && |Trim(p)| > 0 then
          if Contains(lp, "welcome") || Contains(lp, "landing") then
            cs + [Component("hero", map["title" := Some("Welcome"), "subtitle" := Some(p)])]
          else
            cs + [Component("card", map["title" := Some("Generated Content"), "content" := Some(p)])]
        else cs
  {
    OrderLength();
    UpToDetected(p, 8);
  }

  method PushButton(promptText: string, lp: string, newComponents: seq<Component>) returns (r: seq<Component>)
    requires lp == LowerStr(promptText) && newComponents == UpTo(promptText, 0)
    ensures r == UpTo(promptText, 1)
  {
    r := newComponents;
    if Contains(lp, "button") {
      var labelText := Alias(promptText, "button", "label", "text");
      r := r + [Component("button", map["label" := labelText])];
    }
  }

  method PushInput(promptText: string, lp: string, newComponents: seq<Component>) returns (r: seq<Component>)
    requires lp == LowerStr(promptText) && newComponents == UpTo(promptText, 1)
    ensures r == UpTo(promptText, 2)
  {
    r := newComponents;
    if Contains(lp, "input") {
      var placeholder := ExtractProperty(promptText, "input", "placeholder");
      r := r + [Component("input", map["placeholder" := placeholder])];
    }
  }

  method PushCard(promptText: string, lp: string, newComponents: seq<Component>) returns (r: seq<Component>)
    requires lp == LowerStr(promptText) && newComponents == UpTo(promptText, 2)
    ensures r == UpTo(promptText, 3)
  {
    r := newComponents;
    if Contains(lp, "card") {
      var title := ExtractProperty(promptText, "card", "title");
      var content := Alias(promptText, "card", "content", "text");
      r := r + [Component("card", map["title" := title, "content" := content])];
    }
  }

  method PushNavbar(promptText: string, lp: string, newComponents: seq<Component>) returns (r: seq<Component>)
    requires lp == LowerStr(promptText) && newComponents == UpTo(promptText, 3)
    ensures r == UpTo(promptText, 4)
  {
    r := newComponents;
    if Contains(lp, "navbar") || Contains(lp, "navigation") {
      var title := ExtractProperty(promptText, "navbar", "title");
      r := r + [Component("navbar", map["title" := title])];
    }
  }

  method PushForm(promptText: string, lp: string, newComponents: seq<Component>) returns (r: seq<Component>)
    requires lp == LowerStr(promptText) && newComponents == UpTo(promptText, 4)
    ensures r == UpTo(promptText, 5)
  {
    r := newComponents;
    if Contains(lp, "form") {
      var submitText := Alias(promptText, "form", "submit", "button");
      r := r + [Component("form", map["submitText" := submitText])];
    }
  }

  method PushHero(promptText: string, lp: string, newComponents: seq<Component>) returns (r: seq<Component>)
    requires lp == LowerStr(promptText) && newComponents == UpTo(promptText, 5)
    ensures r == UpTo(promptText, 6)
  {
    r := newComponents;
    if Contains(lp, "hero") {
      var title := ExtractProperty(promptText, "hero", "title");
      var subtitle := ExtractProperty(promptText, "hero", "subtitle");
      var buttonText := ExtractProperty(promptText, "hero", "button");
      r := r + [Component("hero", map["title" := title, "subtitle" := subtitle, "buttonText" := buttonText])];
    }
  }

  method PushGallery(promptText: string, lp: string, newComponents: seq<Component>) returns (r: seq<Component>)
    requires lp == LowerStr(promptText) && newComponents == UpTo(promptText, 6)
    ensures r == UpTo(promptText, 7)
  {
    r := newComponents;
    if Contains(lp, "gallery") || Contains(lp, "image") {
      r := r + [Component("gallery", map[])];
    }
  }

  method PushTestimonial(promptText: string, lp: string, newComponents: seq<Component>) returns (r: seq<Component>)
    requires lp == LowerStr(promptText) && newComponents == UpTo(promptText, 7)
    ensures r == UpTo(promptText, 8)
  {
    r := newComponents;
    if Contains(lp, "testimonial") || Contains(lp, "review") {
      var quote := Alias(promptText, "testimonial", "quote", "text");
      var author := Alias(promptText, "testimonial", "author", "name");
      r := r + [Component("testimonial", map["quote" := quote, "author" := author])];
    }
  }

  /** `parsePrompt(promptText)` */
  method ParsePrompt(promptText: string) returns (newComponents: seq<Component>)
    ensures newComponents == Components(promptText)
  {
    var lp := LowerStr(promptText);
    newComponents := [];
    newComponents := PushButton(promptText, lp, newComponents);
    newComponents := PushInput(promptText, lp, newComponents);
    newComponents := PushCard(promptText, lp, newComponents);
    newComponents := PushNavbar(promptText, lp, newComponents);
    newComponents := PushForm(promptText, lp, newComponents);
    newComponents := PushHero(promptText, lp, newComponents);
    newComponents := PushGallery(promptText, lp, newComponents);
    newComponents := PushTestimonial(promptText, lp, newComponents);
    FallbackStep(promptText, newComponents);
    if |newComponents| == 0 && |Trim(promptText)| > 0 {
      if Contains(lp, "welcome") || Contains(lp, "landing") {
        newComponents := newComponents + [Component("hero", map["title" := Some("Welcome"), "subtitle" := Some(promptText)])];
      } else {
        newComponents := newComponents + [Component("card", map["title" := Some("Generated Content"), "content" := Some(promptText)])];
      }
    }
  }
}
