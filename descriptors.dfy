/** The component descriptors the extractor produces and the emitter and the
    preview consume: `{ type, props }` objects whose `type` is a string naming
    one of eight kinds and whose props map property names to a string or null. */
module Descriptors {
  import opened Js

  /** The eight component kinds. */
  datatype Kind = Button | Input | Card | Navbar | Form | Hero | Gallery | Testimonial

  /** The kinds in the order the extractor tests them. */
  const Order: seq<Kind> := [Button, Input, Card, Navbar, Form, Hero, Gallery, Testimonial]

  /** Position of a kind in Order. */
  function Rank(k: Kind): (r: nat)
    ensures r < |Order| && Order[r] == k
  {
    match k
    case Button => 0
    case Input => 1
    case Card => 2
    case Navbar => 3
    case Form => 4
    case Hero => 5
    case Gallery => 6
    case Testimonial => 7
  }

  /** The `type` string of a kind. */
  function KindName(k: Kind): string
  {
    match k
    case Button => "button"
    case Input => "input"
    case Card => "card"
    case Navbar => "navbar"
    case Form => "form"
    case Hero => "hero"
    case Gallery => "gallery"
    case Testimonial => "testimonial"
  }

  /** The kind a `type` string names, if any (the emitter's `switch`). */
  function ParseKind(t: string): (r: Option<Kind>)
    ensures r.Some? ==> KindName(r.value) == t
  {
    if t == "button" then Some(Button)
    else if t == "input" then Some(Input)
    else if t == "card" then Some(Card)
    else if t == "navbar" then Some(Navbar)
    else if t == "form" then Some(Form)
    else if t == "hero" then Some(Hero)
    else if t == "gallery" then Some(Gallery)
    else if t == "testimonial" then Some(Testimonial)
    else None
  }

  lemma ParseKindName(k: Kind)
    ensures ParseKind(KindName(k)) == Some(k)
  {
  }

  /** `props`: each present key holds a string or null. */
  type Props = map<string, Option<string>>

  /** `props.key`: null when the key is absent. */
  function Get(props: Props, key: string): (r: Option<string>)
    ensures key in props ==> r == props[key]
    ensures key !in props ==> r == None
  {
    if key in props then props[key] else None
  }

  datatype Component = Component(typ: string, props: Props)
}
