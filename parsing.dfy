/** What `parsePrompt` promises about the descriptor list it returns: nothing
    exactly for a blank prompt, a single fallback descriptor when no trigger
    word occurs, otherwise one descriptor per triggered kind in the fixed kind
    order, with the property values the pattern captures. */
module Parsing {
  import opened Js
  import opened Pattern
  import opened Descriptors
  import opened App

  /** No trigger word of any kind occurs in the lower-cased prompt lp. */
  predicate NoneTriggered(lp: string)
  {
    forall k :: !Triggered(lp, k)
  }

  /** Ranks strictly increase along ks. */
  predicate InOrder(ks: seq<Kind>)
  {
    forall i, j :: 0 <= i < j < |ks| ==> Rank(ks[i]) < Rank(ks[j])
  }

  /** The position of every kind in Order is its rank. */
  lemma OrderRanks()
    ensures forall i :: 0 <= i < |Order| ==> Rank(Order[i]) == i
  {
    assert Order[0] == Button && Order[1] == Input && Order[2] == Card && Order[3] == Navbar;
    assert Order[4] == Form && Order[5] == Hero && Order[6] == Gallery && Order[7] == Testimonial;
  }

  lemma KindNameInjective(k: Kind, l: Kind)
    ensures KindName(k) == KindName(l) <==> k == l
  {
    ParseKindName(k);
    ParseKindName(l);
  }

  /** A word that starts with a non-space character never occurs in a blank
      string. */
  lemma NotInBlank(h: string, w: string)
    requires AllSpace(h) && w != [] && !IsSpace(w[0])
    ensures !Contains(h, w)
  {
    forall i | 0 <= i <= |h|
      ensures !Occurs(h, i, w)
    {
      if i + |w| <= |h| {
        assert h[i..i + |w|][0] == h[i];
      }
    }
  }

  /** A blank prompt contains no trigger word. */
  lemma BlankTriggersNothing(p: string)
    requires AllSpace(p)
    ensures NoneTriggered(LowerStr(p))
  {
    var lp := LowerStr(p);
    assert AllSpace(lp) by {
      forall k | 0 <= k < |lp|
        ensures IsSpace(lp[k])
      {
        assert lp[k] == Lower(p[k]);
      }
    }
    forall k: Kind
      ensures !Triggered(lp, k)
    {
      match k
      case Button => NotInBlank(lp, "button");
      case Input => NotInBlank(lp, "input");
      case Card => NotInBlank(lp, "card");
      case Navbar => NotInBlank(lp, "navbar"); NotInBlank(lp, "navigation");
      case Form => NotInBlank(lp, "form");
      case Hero => NotInBlank(lp, "hero");
      case Gallery => NotInBlank(lp, "gallery"); NotInBlank(lp, "image");
      case Testimonial => NotInBlank(lp, "testimonial"); NotInBlank(lp, "review");
    }
  }

  /** The extractor returns the empty list exactly for an empty or
      whitespace-only prompt; every other prompt gets at least one descriptor. */
  lemma BlankIffNoComponents(p: string)
    ensures Components(p) == [] <==> AllSpace(p)
  {
    var lp := LowerStr(p);
    if AllSpace(p) {
      BlankTriggersNothing(p);
      DetectedNone(lp, Order);
    } else {
      var ks := Detected(lp, Order);
      if ks != [] {
        assert |DescribeAll(p, ks)| == |ks|;
      }
    }
  }

  /** A non-blank prompt without any trigger word gets exactly one descriptor:
      a hero when "welcome" or "landing" occurs, a card otherwise, both
      carrying the untrimmed prompt. */
  lemma NothingDetected(p: string)
    requires NoneTriggered(LowerStr(p)) && !AllSpace(p)
    ensures var lp := LowerStr(p);
      Components(p) ==
        [if Contains(lp, "welcome") || Contains(lp, "landing") then
           Component("hero", map["title" := Some("Welcome"), "subtitle" := Some(p)])
         else
           Component("card", map["title" := Some("Generated Content"), "content" := Some(p)])]
  {
    DetectedNone(LowerStr(p), Order);
  }

  /** The kinds detected among the first n of Order are in rank order, below n. */
  lemma {:induction false} DetectedInOrder(lp: string, n: nat)
    requires n <= |Order|
    ensures InOrder(Detected(lp, Order[..n]))
    ensures forall k :: k in Detected(lp, Order[..n]) ==> Rank(k) < n
    ensures |Detected(lp, Order[..n])| <= n
  {
    if n > 0 {
      DetectedInOrder(lp, n - 1);
      assert Order[..n][..n - 1] == Order[..n - 1];
      OrderRanks();
    }
  }

  /** Some trigger word occurs, so the fallback does not fire. */
  lemma SomeDetected(p: string)
    requires !NoneTriggered(LowerStr(p))
    ensures Detected(LowerStr(p), Order) != []
    ensures Components(p) == DescribeAll(p, Detected(LowerStr(p), Order))
  {
    var lp := LowerStr(p);
    var l :| Triggered(lp, l);
    DetectedMembers(lp, Order);
    assert Order[Rank(l)] == l;
    assert l in Detected(lp, Order);
  }

  /** The kind of the fallback descriptor. */
  function FallbackKind(p: string): Kind
  {
    var lp := LowerStr(p);
    if Contains(lp, "welcome") || Contains(lp, "landing") then Hero else Card
  }

  /** The kind of every descriptor of p, in list order. */
  function KindsOf(p: string): seq<Kind>
  {
    var d := Detected(LowerStr(p), Order);
    if d != [] then d
    else if Trim(p) != [] then [FallbackKind(p)]
    else []
  }

  lemma DetectedCase(p: string)
    requires Detected(LowerStr(p), Order) != []
    ensures KindsOf(p) == Detected(LowerStr(p), Order)
    ensures Components(p) == DescribeAll(p, Detected(LowerStr(p), Order))
  {
  }

  lemma FallbackComponents(p: string)
    requires Detected(LowerStr(p), Order) == [] && Trim(p) != []
    ensures Components(p) == [Fallback(p)]
  {
  }

  lemma FallbackKinds(p: string)
    requires Detected(LowerStr(p), Order) == [] && Trim(p) != []
    ensures KindsOf(p) == [FallbackKind(p)]
  {
  }

  lemma FallbackType(p: string)
    ensures Fallback(p).typ == KindName(FallbackKind(p))
  {
  }

  lemma BlankCase(p: string)
    requires Detected(LowerStr(p), Order) == [] && Trim(p) == []
    ensures KindsOf(p) == [] && Components(p) == []
  {
  }

  lemma KindsLength(p: string)
    ensures |KindsOf(p)| == |Components(p)|
  {
    if Detected(LowerStr(p), Order) != [] {
      DetectedCase(p);
    } else if Trim(p) != [] {
      FallbackComponents(p);
      FallbackKinds(p);
    } else {
      BlankCase(p);
    }
  }

  lemma KindsTypes(p: string)
    ensures forall i :: 0 <= i < |KindsOf(p)| && i < |Components(p)| ==>
      Components(p)[i].typ == KindName(KindsOf(p)[i])
  {
    if Detected(LowerStr(p), Order) != [] {
      DetectedCase(p);
    } else if Trim(p) != [] {
      FallbackComponents(p);
      FallbackKinds(p);
      FallbackType(p);
    } else {
      BlankCase(p);
    }
  }

  lemma KindsDescriptors(p: string)
    requires Detected(LowerStr(p), Order) != []
    ensures forall i :: 0 <= i < |KindsOf(p)| && i < |Components(p)| ==>
      Components(p)[i] == Descriptor(p, KindsOf(p)[i])
  {
    DetectedCase(p);
  }

  /** KindsOf p names the type of each descriptor of p; a detected kind's
      descriptor is the one of the property table. */
  lemma KindsOfComponents(p: string)
    ensures |KindsOf(p)| == |Components(p)|
    ensures forall i :: 0 <= i < |KindsOf(p)| ==> Components(p)[i].typ == KindName(KindsOf(p)[i])
    ensures Detected(LowerStr(p), Order) != [] ==>
      forall i :: 0 <= i < |KindsOf(p)| ==> Components(p)[i] == Descriptor(p, KindsOf(p)[i])
  {
    KindsLength(p);
    KindsTypes(p);
    if Detected(LowerStr(p), Order) != [] {
      KindsDescriptors(p);
    }
  }

  /** At most one descriptor per kind, in the order button, input, card,
      navbar, form, hero, gallery, testimonial, so at most eight. */
  lemma ComponentsInOrder(p: string)
    ensures InOrder(KindsOf(p))
    ensures |Components(p)| <= |Order|
    ensures forall i, j :: 0 <= i < j < |Components(p)| ==> Components(p)[i].typ != Components(p)[j].typ
  {
    DetectedInOrder(LowerStr(p), |Order|);
    OrderLength();
    KindsOfComponents(p);
    var ks := KindsOf(p);
    forall i, j | 0 <= i < j < |ks|
      ensures Components(p)[i].typ != Components(p)[j].typ
    {
      KindNameInjective(ks[i], ks[j]);
    }
  }

  /** Every triggered kind has its descriptor in the list and, unless the
      fallback fired, every kind in the list is triggered. */
  lemma TriggeredIffPresent(p: string, k: Kind)
    ensures Triggered(LowerStr(p), k) ==> Descriptor(p, k) in Components(p)
    ensures !NoneTriggered(LowerStr(p)) ==> (k in KindsOf(p) <==> Triggered(LowerStr(p), k))
  {
    var lp := LowerStr(p);
    var ks := Detected(lp, Order);
    DetectedMembers(lp, Order);
    assert k in Order by {
      assert Order[Rank(k)] == k;
    }
    if Triggered(lp, k) {
      SomeDetected(p);
      var i :| 0 <= i < |ks| && ks[i] == k;
      assert Components(p)[i] == Descriptor(p, k);
    }
    if !NoneTriggered(lp) {
      SomeDetected(p);
    }
  }

  /** A word is contained in any text containing a longer word it occurs in. */
  lemma ContainsTransitive(h: string, a: string, b: string)
    requires Contains(h, a) && Contains(a, b)
    ensures Contains(h, b)
  {
    var i :| 0 <= i <= |h| && Occurs(h, i, a);
    var j :| 0 <= j <= |a| && Occurs(a, j, b);
    forall t | 0 <= t < |b|
      ensures h[i + j + t] == b[t]
    {
      assert h[i..i + |a|][j + t] == a[j + t];
      assert a[j..j + |b|][t] == b[t];
    }
    assert h[i + j..i + j + |b|] == b;
    assert Occurs(h, i + j, b);
  }

  /** Detection is substring containment: "navigation" triggers the navbar,
      "image" the gallery, "review" the testimonial, and any word that contains
      "form", such as "platform", the form. */
  lemma TriggerWords(p: string)
    ensures Contains(LowerStr(p), "navigation") ==> Triggered(LowerStr(p), Navbar)
    ensures Contains(LowerStr(p), "image") ==> Triggered(LowerStr(p), Gallery)
    ensures Contains(LowerStr(p), "review") ==> Triggered(LowerStr(p), Testimonial)
    ensures Contains(LowerStr(p), "platform") ==> Triggered(LowerStr(p), Form)
  {
    if Contains(LowerStr(p), "platform") {
      assert "platform"[4..8] == "form";
      assert Occurs("platform", 4, "form");
      ContainsTransitive(LowerStr(p), "platform", "form");
    }
  }

  /** Detection ignores ASCII case: a trigger word written in capitals counts. */
  lemma UpperCaseTriggers(p: string)
    requires Contains(p, "FORM")
    ensures Triggered(LowerStr(p), Form)
  {
    var i :| 0 <= i <= |p| && Occurs(p, i, "FORM");
    var lp := LowerStr(p);
    assert lp[i..i + 4] == "form" by {
      assert p[i..i + 4] == "FORM";
      assert p[i] == 'F' && p[i + 1] == 'O' && p[i + 2] == 'R' && p[i + 3] == 'M';
    }
    assert Occurs(lp, i, "form");
  }

  /** Lower-casing changes letters only, never whitespace. */
  lemma LowerKeepsSpace(p: string)
    ensures AllSpace(LowerStr(p)) <==> AllSpace(p)
  {
    forall k | 0 <= k < |p|
      ensures IsSpace(LowerStr(p)[k]) <==> IsSpace(p[k])
    {
      assert LowerStr(p)[k] == Lower(p[k]);
    }
  }

  /** Which kinds are produced, and in which order, depends on the prompt only
      up to ASCII case: two prompts equal after lower-casing give descriptors
      of the same kinds (their values keep the prompt's own case). */
  lemma CaseInsensitiveKinds(p: string, q: string)
    requires LowerStr(p) == LowerStr(q)
    ensures KindsOf(p) == KindsOf(q)
  {
    LowerKeepsSpace(p);
    LowerKeepsSpace(q);
  }

  /** The i-th descriptor is the one of the i-th detected kind or, when
      nothing is detected, the fallback. */
  lemma ComponentAt(p: string, i: nat)
    requires i < |Components(p)|
    ensures i < |KindsOf(p)|
    ensures Detected(LowerStr(p), Order) != [] ==> Components(p)[i] == Descriptor(p, KindsOf(p)[i])
    ensures Detected(LowerStr(p), Order) == [] ==> Components(p)[i] == Fallback(p)
  {
    var ks := Detected(LowerStr(p), Order);
    if ks != [] {
      DetectedCase(p);
    } else if Trim(p) != [] {
      FallbackComponents(p);
      FallbackKinds(p);
    } else {
      BlankCase(p);
    }
  }

  lemma NavbarDescriptor(p: string)
    ensures Descriptor(p, Navbar) == Component("navbar", map["title" := ExtractProperty(p, "navbar", "title")])
  {
  }

  /** Extraction looks for the canonical kind word, not the trigger: a prompt
      that says "navigation" but never "navbar" gets a navbar with a null
      title. */
  lemma NavigationWithoutNavbar(p: string)
    requires Contains(LowerStr(p), "navigation") && !Contains(LowerStr(p), "navbar")
    ensures Component("navbar", map["title" := None]) in Components(p)
  {
    TriggerWords(p);
    TriggeredIffPresent(p, Navbar);
    ExtractPropertyMeaning(p, "navbar", "title");
    NavbarDescriptor(p);
  }

  /** The keys of each kind's descriptor. */
  lemma DescriptorKeys(p: string, k: Kind)
    ensures "role" !in Descriptor(p, k).props
    ensures k == Gallery <==> Descriptor(p, k).props == map[]
    ensures k == Hero <==> "buttonText" in Descriptor(p, k).props
  {
    var props := Descriptor(p, k).props;
    match k
    case Button => assert "label" in props;
    case Input => assert "placeholder" in props;
    case Card => assert "title" in props;
    case Navbar => assert "title" in props;
    case Form => assert "submitText" in props;
    case Hero => assert "title" in props;
    case Gallery =>
    case Testimonial => assert "quote" in props;
  }

  /** The keys of the fallback descriptor. */
  lemma FallbackKeys(p: string)
    ensures "role" !in Fallback(p).props && "buttonText" !in Fallback(p).props
    ensures Fallback(p).typ != "gallery"
  {
  }

  /** A gallery descriptor never carries properties. */
  lemma GalleryHasNoProps(p: string)
    ensures forall c :: c in Components(p) && c.typ == "gallery" ==> c.props == map[]
  {
    var cs := Components(p);
    forall c | c in cs && c.typ == "gallery"
      ensures c.props == map[]
    {
      var i :| 0 <= i < |cs| && cs[i] == c;
      ComponentAt(p, i);
      if Detected(LowerStr(p), Order) != [] {
        var k := KindsOf(p)[i];
        KindNameInjective(k, Gallery);
        DescriptorKeys(p, k);
      } else {
        FallbackKeys(p);
      }
    }
  }

  /** The extractor never sets a testimonial's role (nor any descriptor's). */
  lemma RoleNeverSet(p: string)
    ensures forall c :: c in Components(p) ==> "role" !in c.props
  {
    var cs := Components(p);
    forall c | c in cs
      ensures "role" !in c.props
    {
      var i :| 0 <= i < |cs| && cs[i] == c;
      ComponentAt(p, i);
      if Detected(LowerStr(p), Order) != [] {
        DescriptorKeys(p, KindsOf(p)[i]);
      } else {
        FallbackKeys(p);
      }
    }
  }

  /** Only a detected hero has a button text. */
  lemma ButtonTextIsHero(p: string, i: nat)
    requires i < |Components(p)|
    ensures "buttonText" in Components(p)[i].props ==>
      Detected(LowerStr(p), Order) != [] && KindsOf(p)[i] == Hero && Components(p)[i] == Descriptor(p, Hero)
  {
    ComponentAt(p, i);
    if Detected(LowerStr(p), Order) != [] {
      DescriptorKeys(p, KindsOf(p)[i]);
    } else {
      FallbackKeys(p);
    }
  }

  lemma HeroButtonText(p: string)
    ensures Descriptor(p, Hero).props["buttonText"] == ExtractProperty(p, "hero", "button")
  {
  }

  /** The hero's button text is looked up under the property name "button", so
      a prompt that supplies it also contains "button" and gets a button
      descriptor, placed before the hero. */
  lemma HeroButtonNeedsButton(p: string, i: nat)
    requires i < |Components(p)| && "buttonText" in Components(p)[i].props
    requires Components(p)[i].props["buttonText"].Some?
    ensures exists j :: 0 <= j < i && Components(p)[j] == Descriptor(p, Button)
  {
    var lp := LowerStr(p);
    ButtonTextIsHero(p, i);
    HeroButtonText(p);
    ExtractPropertyMeaning(p, "hero", "button");
    assert Triggered(lp, Button);
    TriggeredIffPresent(p, Button);
    var j :| 0 <= j < |Components(p)| && Components(p)[j] == Descriptor(p, Button);
    ComponentAt(p, j);
    KindsOfComponents(p);
    KindNameInjective(KindsOf(p)[j], Button);
    ComponentsInOrder(p);
    assert Rank(KindsOf(p)[j]) < Rank(KindsOf(p)[i]);
  }

  /** `extractProperty(p, kind, a) || extractProperty(p, kind, b)`: the first
      name's value wins whenever it is truthy. When it is null, or "" because
      the capture was whitespace only (`label: ''` leaves a single space, see
      Pattern.EmptyQuotesCapture), the second name's value is used, null or not. */
  lemma AliasPrecedence(p: string, kind: string, a: string, b: string)
    ensures Truthy(ExtractProperty(p, kind, a)) ==> Alias(p, kind, a, b) == ExtractProperty(p, kind, a)
    ensures !Truthy(ExtractProperty(p, kind, a)) ==> Alias(p, kind, a, b) == ExtractProperty(p, kind, b)
    ensures !Truthy(ExtractProperty(p, kind, a)) <==>
      Match(p, kind, a).None? || AllSpace(Match(p, kind, a).value)
  {
    OrPrecedence(ExtractProperty(p, kind, a), ExtractProperty(p, kind, b));
  }

  /** In `a hero section with title 'Welcome'` the word after "hero" is
      neither a connective nor preceded by two spaces, so nothing is captured
      there: when every occurrence of "hero" is like this, the hero's title,
      subtitle and button text are all null. */
  lemma UnjoinedHeroIsEmpty(p: string)
    requires forall st :: 0 <= st <= |p| && WordAt(p, st, "hero") ==> Unjoined(p, st + 4)
    ensures Descriptor(p, Hero).props == map["title" := None, "subtitle" := None, "buttonText" := None]
  {
    UnjoinedNoMatch(p, "hero", "title");
    UnjoinedNoMatch(p, "hero", "subtitle");
    UnjoinedNoMatch(p, "hero", "button");
  }

  /** A stored value is clean when it is null or trimmed and free of quotes. */
  predicate Clean(v: Option<string>)
  {
    v.Some? ==> QuoteFree(v.value) && Trimmed(v.value)
  }

  lemma ExtractClean(p: string, kind: string, prop: string)
    ensures Clean(ExtractProperty(p, kind, prop))
  {
    ExtractPropertyMeaning(p, kind, prop);
  }

  lemma AliasClean(p: string, kind: string, a: string, b: string)
    ensures Clean(Alias(p, kind, a, b))
  {
    ExtractClean(p, kind, a);
    ExtractClean(p, kind, b);
  }

  /** Every value of a kind's descriptor is a capture of the pattern: trimmed
      and free of quotes. */
  lemma PropsClean(p: string, k: Kind)
    ensures forall key :: key in PropsFor(p, k) ==> Clean(PropsFor(p, k)[key])
  {
    match k
    case Button =>
      AliasClean(p, "button", "label", "text");
    case Input =>
      ExtractClean(p, "input", "placeholder");
    case Card =>
      ExtractClean(p, "card", "title");
      AliasClean(p, "card", "content", "text");
    case Navbar =>
      ExtractClean(p, "navbar", "title");
    case Form =>
      AliasClean(p, "form", "submit", "button");
    case Hero =>
      ExtractClean(p, "hero", "title");
      ExtractClean(p, "hero", "subtitle");
      ExtractClean(p, "hero", "button");
    case Gallery =>
    case Testimonial =>
      AliasClean(p, "testimonial", "quote", "text");
      AliasClean(p, "testimonial", "author", "name");
  }

  /** Unless the fallback fired (its props carry the raw prompt), every value
      the extractor stores is trimmed and contains no quote character. */
  lemma ExtractedValuesClean(p: string)
    requires !NoneTriggered(LowerStr(p))
    ensures forall c, key :: c in Components(p) && key in c.props ==> Clean(c.props[key])
  {
    var cs := Components(p);
    SomeDetected(p);
    forall c, key | c in cs && key in c.props
      ensures Clean(c.props[key])
    {
      var i :| 0 <= i < |cs| && cs[i] == c;
      ComponentAt(p, i);
      PropsClean(p, KindsOf(p)[i]);
    }
  }
}
