/** The code panel `CodePreview`: for the current descriptor list it emits
    the source text of a React component that renders the same descriptors,
    each through a fixed snippet whose text slots follow the same rule as the
    live templates (an absent, null or empty property is replaced by a
    default). */
module CodePreview {
  import opened Js
  import opened Descriptors

  /** `' '.repeat(n)` */
  function Spaces(n: nat): (r: string)
    ensures |r| == n
    ensures forall i :: 0 <= i < n ==> r[i] == ' '
  {
    seq(n, i => ' ')
  }

  /** Lines each written as `${indent}line\n`. */
  function Indented(n: nat, ls: seq<string>): (r: string)
    ensures ls == [] <==> r == []
    ensures ls != [] ==> |r| > n && r[..n] == Spaces(n) && r[|r| - 1] == '\n'
  {
    if ls == [] then []
    else
      var rest := Indented(n, ls[1..]);
      var r := Spaces(n) + ls[0] + "\n" + rest;
      assert r[..n] == Spaces(n);
      r
  }

  // The snippet of each kind, line by line and without its indentation: its
  // fixed lines, and the lines that hold the texts of its slots.

  const ButtonHead: seq<string> :=
    [ "<button className=\"px-4 py-2 bg-blue-500 text-white rounded-md hover:bg-blue-600 transition-colors\">" ]
  const ButtonTail: seq<string> :=
    [ "</button>" ]

  function ButtonLines(text: string): (r: seq<string>)
    ensures r != []
  {
    ButtonHead + ["  " + text] + ButtonTail
  }

  const InputHead: seq<string> :=
    [ "<input", "  type=\"text\"" ]
  const InputTail: seq<string> :=
    [ "  className=\"p-2 border rounded-md w-full focus:outline-none focus:ring-2 focus:ring-blue-500\"",
      "/>" ]

  function InputLines(placeholder: string): (r: seq<string>)
    ensures r != []
  {
    InputHead + ["  placeholder=\"" + placeholder + "\""] + InputTail
  }

  const CardHead: seq<string> :=
    [ "<div className=\"bg-white dark:bg-gray-800 rounded-lg shadow-md p-4 max-w-sm\">" ]
  const CardTail: seq<string> :=
    [ "</div>" ]

  function CardLines(title: string, content: string): (r: seq<string>)
    ensures r != []
  {
    CardHead
      + ["  <h3 className=\"text-lg font-bold mb-2\">" + title + "</h3>"]
      + ["  <p className=\"text-gray-600 dark:text-gray-300\">" + content + "</p>"]
      + CardTail
  }

  const NavbarHead: seq<string> :=
    [ "<nav className=\"bg-white dark:bg-gray-800 shadow-md p-4\">",
      "  <div className=\"flex justify-between items-center\">" ]
  const NavbarTail: seq<string> :=
    [ "    <div className=\"flex space-x-4\">",
      "      {['Home', 'About', 'Contact'].map((link, i) => (",
      "        <a key={i} href=\"#\" className=\"hover:text-blue-500\">{link}</a>",
      "      ))}",
      "    </div>",
      "  </div>",
      "</nav>" ]

  function NavbarLines(title: string): (r: seq<string>)
    ensures r != []
  {
    NavbarHead + ["    <div className=\"font-bold text-xl\">" + title + "</div>"] + NavbarTail
  }

  const FormHead: seq<string> :=
    [ "<form className=\"space-y-4 max-w-md\">",
      "  <div>",
      "    <label className=\"block text-sm font-medium mb-1\">Email</label>",
      "    <input type=\"email\" className=\"p-2 border rounded-md w-full focus:outline-none focus:ring-2 focus:ring-blue-500\" />",
      "  </div>",
      "  <div>",
      "    <label className=\"block text-sm font-medium mb-1\">Password</label>",
      "    <input type=\"password\" className=\"p-2 border rounded-md w-full focus:outline-none focus:ring-2 focus:ring-blue-500\" />",
      "  </div>",
      "  <button type=\"submit\" className=\"px-4 py-2 bg-blue-500 text-white rounded-md hover:bg-blue-600 w-full\">" ]
  const FormTail: seq<string> :=
    [ "  </button>", "</form>" ]

  function FormLines(submitText: string): (r: seq<string>)
    ensures r != []
  {
    FormHead + ["    " + submitText] + FormTail
  }

  const HeroHead: seq<string> :=
    [ "<div className=\"text-center py-12 px-4\">" ]
  const HeroMid: seq<string> :=
    [ "  <button className=\"px-6 py-3 bg-blue-500 text-white rounded-md hover:bg-blue-600 transition-colors\">" ]
  const HeroTail: seq<string> :=
    [ "  </button>", "</div>" ]

  function HeroLines(title: string, subtitle: string, buttonText: string): (r: seq<string>)
    ensures r != []
  {
    HeroHead
      + ["  <h1 className=\"text-4xl font-bold mb-4\">" + title + "</h1>"]
      + ["  <p className=\"text-lg text-gray-600 dark:text-gray-300 mb-6\">" + subtitle + "</p>"]
      + HeroMid
      + ["    " + buttonText]
      + HeroTail
  }

  const GalleryLines: seq<string> :=
    [ "<div className=\"grid grid-cols-1 md:grid-cols-3 gap-4 p-4\">",
      "  {[1, 2, 3].map((item, i) => (",
      "    <div key={i} className=\"aspect-square bg-gray-200 dark:bg-gray-700 rounded-lg flex items-center justify-center\">",
      "      <span className=\"text-gray-500 dark:text-gray-400\">Image {item}</span>",
      "    </div>",
      "  ))}",
      "</div>" ]

  const TestimonialHead: seq<string> :=
    [ "<div className=\"bg-white dark:bg-gray-800 p-6 rounded-lg shadow-md\">" ]
  const TestimonialMid: seq<string> :=
    [ "  <div className=\"flex items-center\">",
      "    <div className=\"w-10 h-10 bg-gray-300 dark:bg-gray-600 rounded-full mr-3\"></div>",
      "    <div>" ]
  const TestimonialTail: seq<string> :=
    [ "    </div>", "  </div>", "</div>" ]

  function TestimonialLines(quote: string, author: string, role: string): (r: seq<string>)
    ensures r != []
  {
    TestimonialHead
      + ["  <p className=\"italic mb-4 text-gray-600 dark:text-gray-300\">\"" + quote + "\"</p>"]
      + TestimonialMid
      + ["      <p className=\"font-medium\">" + author + "</p>"]
      + ["      <p className=\"text-sm text-gray-500 dark:text-gray-400\">" + role + "</p>"]
      + TestimonialTail
  }

  /** The `switch (type)` of the emitter for a known kind: each slot is the
      property when it is a non-empty string and the slot's default
      otherwise. */
  function KindLines(props: Props, k: Kind): seq<string>
  {
    match k
    case Button => ButtonLines(OrDefault(Get(props, "label"), "Button"))
    case Input => InputLines(OrDefault(Get(props, "placeholder"), "Enter text..."))
    case Card => CardLines(OrDefault(Get(props, "title"), "Card Title"),
                           OrDefault(Get(props, "content"), "Card content goes here"))
    case Navbar => NavbarLines(OrDefault(Get(props, "title"), "Site Name"))
    case Form => FormLines(OrDefault(Get(props, "submitText"), "Submit"))
    case Hero => HeroLines(OrDefault(Get(props, "title"), "Welcome to our site"),
                           OrDefault(Get(props, "subtitle"), "This is a hero section for your website"),
                           OrDefault(Get(props, "buttonText"), "Get Started"))
    case Gallery => GalleryLines
    case Testimonial =>
      TestimonialLines(OrDefault(Get(props, "quote"), "This product is amazing! I would definitely recommend it to anyone."),
                       OrDefault(Get(props, "author"), "Jane Doe"),
                       OrDefault(Get(props, "role"), "Customer"))
  }

  /** The comment written for a type the `switch` does not know. */
  function UnknownLine(typ: string): string
  {
    "<!-- Unknown component type: " + typ + " -->"
  }

  /** `generateComponentCode(component, indentLevel)`. Every snippet, known
      type or not, starts with its indentation and ends with a line break. */
  function GenerateComponentCode(c: Component, indentLevel: nat): (code: string)
    ensures |code| > indentLevel && code[..indentLevel] == Spaces(indentLevel)
    ensures code[|code| - 1] == '\n'
  {
    var lines := match ParseKind(c.typ)
      case None => [UnknownLine(c.typ)]
      case Some(k) => (KindLinesNonEmpty(c.props, k); KindLines(c.props, k));
    Indented(indentLevel, lines)
  }

  const Header: string :=
    "import React from \"react\";\n\n" + "const GeneratedComponent = () => {\n" + "  return (\n"
  const Open: string := "    <div className=\"space-y-4\">\n"
  const Close: string := "    </div>\n"
  const Footer: string := "  );\n" + "};\n\n" + "export default GeneratedComponent;"
  const NoComponents: string := "// No components generated yet"

  /** The snippets of `cs` at one indentation, in list order. */
  function Snippets(cs: seq<Component>, n: nat): string
  {
    if cs == [] then []
    else Snippets(cs[..|cs| - 1], n) + GenerateComponentCode(cs[|cs| - 1], n)
  }

  /** The text the effect stores for a descriptor list: the placeholder
      comment exactly when the list is empty. */
  function Code(cs: seq<Component>): (code: string)
    ensures code == NoComponents <==> cs == []
  {
    assert |Header| + |Footer| > |NoComponents|;
    if cs == [] then NoComponents
    else if |cs| == 1 then Header + GenerateComponentCode(cs[0], 4) + Footer
    else Header + Open + Snippets(cs, 6) + Close + Footer
  }

  lemma Assoc(a: string, b: string, c: string)
    ensures a + b + c == a + (b + c)
  {
  }

  lemma Assoc4(a: string, b: string, c: string, d: string)
    ensures a + b + c + d == a + (b + c + d)
  {
  }

  lemma SnippetsStep(cs: seq<Component>, i: nat, n: nat)
    requires i < |cs|
    ensures Snippets(cs[..i + 1], n) == Snippets(cs[..i], n) + GenerateComponentCode(cs[i], n)
  {
    assert cs[..i + 1][..i] == cs[..i];
  }

  /** The effect: builds the code text piece by piece. */
  method GenerateCode(components: seq<Component>) returns (code: string)
    ensures code == Code(components)
  {
    if |components| == 0 {
      code := "// No components generated yet";
      return;
    }
    var generatedCode := "import React from \"react\";\n\n";
    generatedCode := generatedCode + "const GeneratedComponent = () => {\n";
    generatedCode := generatedCode + "  return (\n";
    if |components| == 1 {
      generatedCode := generatedCode + GenerateComponentCode(components[0], 4);
    } else {
      generatedCode := generatedCode + "    <div className=\"space-y-4\">\n";
      var i := 0;
      while i < |components|
        invariant 0 <= i <= |components|
        invariant generatedCode == Header + Open + Snippets(components[..i], 6)
      {
        SnippetsStep(components, i, 6);
        Assoc(Header + Open, Snippets(components[..i], 6), GenerateComponentCode(components[i], 6));
        generatedCode := generatedCode + GenerateComponentCode(components[i], 6);
        i := i + 1;
      }
      assert components[..i] == components;
      generatedCode := generatedCode + "    </div>\n";
    }
    var body := generatedCode;
    generatedCode := generatedCode + "  );\n";
    generatedCode := generatedCode + "};\n\n";
    generatedCode := generatedCode + "export default GeneratedComponent;";
    Assoc(body, "  );\n", "};\n\n");
    Assoc(body, "  );\n" + "};\n\n", "export default GeneratedComponent;");
    code := generatedCode;
  }

  // ---------------------------------------------------------------------
  // Containment

  lemma ContainsMiddle(a: string, s: string, b: string)
    ensures Contains(a + s + b, s)
  {
    assert (a + s + b)[|a|..|a| + |s|] == s;
    assert Occurs(a + s + b, |a|, s);
  }

  lemma ContainsLeft(a: string, b: string, s: string)
    requires Contains(a, s)
    ensures Contains(a + b, s)
  {
    var i :| 0 <= i <= |a| && Occurs(a, i, s);
    assert (a + b)[i..i + |s|] == a[i..i + |s|];
    assert Occurs(a + b, i, s);
  }

  lemma ContainsRight(a: string, b: string, s: string)
    requires Contains(b, s)
    ensures Contains(a + b, s)
  {
    var i :| 0 <= i <= |b| && Occurs(b, i, s);
    assert (a + b)[|a| + i..|a| + i + |s|] == b[i..i + |s|];
    assert Occurs(a + b, |a| + i, s);
  }

  /** Whatever one line contains, the indented text contains. */
  lemma {:induction false} IndentedContains(n: nat, ls: seq<string>, i: nat, s: string)
    requires i < |ls| && Contains(ls[i], s)
    ensures Contains(Indented(n, ls), s)
  {
    var rest := Indented(n, ls[1..]);
    if i == 0 {
      ContainsRight(Spaces(n), ls[0], s);
      ContainsLeft(Spaces(n) + ls[0], "\n", s);
      ContainsLeft(Spaces(n) + ls[0] + "\n", rest, s);
    } else {
      IndentedContains(n, ls[1..], i - 1, s);
      ContainsRight(Spaces(n) + ls[0] + "\n", rest, s);
    }
  }

  /** Whatever one slot line shows, the snippet shows, for each snippet
      layout: one slot line between fixed lines, two adjacent ones, and the
      hero's and the testimonial's. */
  lemma OneSlot(n: nat, head: seq<string>, x: string, tail: seq<string>, s: string)
    requires Contains(x, s)
    ensures Contains(Indented(n, head + [x] + tail), s)
  {
    IndentedContains(n, head + [x] + tail, |head|, s);
  }

  lemma TwoSlots(n: nat, head: seq<string>, x: string, y: string, tail: seq<string>, s: string)
    requires Contains(x, s) || Contains(y, s)
    ensures Contains(Indented(n, head + [x] + [y] + tail), s)
  {
    var ls := head + [x] + [y] + tail;
    if Contains(x, s) {
      IndentedContains(n, ls, |head|, s);
    } else {
      IndentedContains(n, ls, |head| + 1, s);
    }
  }

  lemma HeroSlots(n: nat, head: seq<string>, x: string, y: string, mid: seq<string>, z: string,
                  tail: seq<string>, s: string)
    requires Contains(x, s) || Contains(y, s) || Contains(z, s)
    ensures Contains(Indented(n, head + [x] + [y] + mid + [z] + tail), s)
  {
    var ls := head + [x] + [y] + mid + [z] + tail;
    if Contains(x, s) {
      IndentedContains(n, ls, |head|, s);
    } else if Contains(y, s) {
      IndentedContains(n, ls, |head| + 1, s);
    } else {
      IndentedContains(n, ls, |head| + 2 + |mid|, s);
    }
  }

  lemma TestimonialSlots(n: nat, head: seq<string>, x: string, mid: seq<string>, y: string, z: string,
                         tail: seq<string>, s: string)
    requires Contains(x, s) || Contains(y, s) || Contains(z, s)
    ensures Contains(Indented(n, head + [x] + mid + [y] + [z] + tail), s)
  {
    var ls := head + [x] + mid + [y] + [z] + tail;
    if Contains(x, s) {
      IndentedContains(n, ls, |head|, s);
    } else if Contains(y, s) {
      IndentedContains(n, ls, |head| + 1 + |mid|, s);
    } else {
      IndentedContains(n, ls, |head| + 2 + |mid|, s);
    }
  }

  /** A line `a + s` shows `s`. */
  lemma ContainsEnd(a: string, s: string)
    ensures Contains(a + s, s)
  {
    assert (a + s)[|a|..] == s;
    assert Occurs(a + s, |a|, s);
  }

  /** Every slot text of each snippet is written into it. */
  lemma ButtonEmits(n: nat, text: string)
    ensures Contains(Indented(n, ButtonLines(text)), text)
  {
    ContainsEnd("  ", text);
    OneSlot(n, ButtonHead, "  " + text, ButtonTail, text);
  }

  lemma InputEmits(n: nat, placeholder: string)
    ensures Contains(Indented(n, InputLines(placeholder)), placeholder)
  {
    var a := "  placeholder=\"";
    ContainsMiddle(a, placeholder, "\"");
    OneSlot(n, InputHead, a + placeholder + "\"", InputTail, placeholder);
  }

  lemma CardEmits(n: nat, title: string, content: string)
    ensures Contains(Indented(n, CardLines(title, content)), title)
    ensures Contains(Indented(n, CardLines(title, content)), content)
  {
    var a1, b1 := "  <h3 className=\"text-lg font-bold mb-2\">", "</h3>";
    var a2, b2 := "  <p className=\"text-gray-600 dark:text-gray-300\">", "</p>";
    ContainsMiddle(a1, title, b1);
    ContainsMiddle(a2, content, b2);
    TwoSlots(n, CardHead, a1 + title + b1, a2 + content + b2, CardTail, title);
    TwoSlots(n, CardHead, a1 + title + b1, a2 + content + b2, CardTail, content);
  }

  lemma NavbarEmits(n: nat, title: string)
    ensures Contains(Indented(n, NavbarLines(title)), title)
  {
    var a, b := "    <div className=\"font-bold text-xl\">", "</div>";
    ContainsMiddle(a, title, b);
    OneSlot(n, NavbarHead, a + title + b, NavbarTail, title);
  }

  lemma FormEmits(n: nat, submitText: string)
    ensures Contains(Indented(n, FormLines(submitText)), submitText)
  {
    ContainsEnd("    ", submitText);
    OneSlot(n, FormHead, "    " + submitText, FormTail, submitText);
  }

  lemma HeroEmits(n: nat, title: string, subtitle: string, buttonText: string)
    ensures Contains(Indented(n, HeroLines(title, subtitle, buttonText)), title)
    ensures Contains(Indented(n, HeroLines(title, subtitle, buttonText)), subtitle)
    ensures Contains(Indented(n, HeroLines(title, subtitle, buttonText)), buttonText)
  {
    var a1, b1 := "  <h1 className=\"text-4xl font-bold mb-4\">", "</h1>";
    var a2, b2 := "  <p className=\"text-lg text-gray-600 dark:text-gray-300 mb-6\">", "</p>";
    var x, y, z := a1 + title + b1, a2 + subtitle + b2, "    " + buttonText;
    ContainsMiddle(a1, title, b1);
    ContainsMiddle(a2, subtitle, b2);
    ContainsEnd("    ", buttonText);
    HeroSlots(n, HeroHead, x, y, HeroMid, z, HeroTail, title);
    HeroSlots(n, HeroHead, x, y, HeroMid, z, HeroTail, subtitle);
    HeroSlots(n, HeroHead, x, y, HeroMid, z, HeroTail, buttonText);
  }

  lemma TestimonialEmits(n: nat, quote: string, author: string, role: string)
    ensures Contains(Indented(n, TestimonialLines(quote, author, role)), quote)
    ensures Contains(Indented(n, TestimonialLines(quote, author, role)), author)
    ensures Contains(Indented(n, TestimonialLines(quote, author, role)), role)
  {
    var a1, b1 := "  <p className=\"italic mb-4 text-gray-600 dark:text-gray-300\">\"", "\"</p>";
    var a2, b2 := "      <p className=\"font-medium\">", "</p>";
    var a3, b3 := "      <p className=\"text-sm text-gray-500 dark:text-gray-400\">", "</p>";
    var x, y, z := a1 + quote + b1, a2 + author + b2, a3 + role + b3;
    ContainsMiddle(a1, quote, b1);
    ContainsMiddle(a2, author, b2);
    ContainsMiddle(a3, role, b3);
    TestimonialSlots(n, TestimonialHead, x, TestimonialMid, y, z, TestimonialTail, quote);
    TestimonialSlots(n, TestimonialHead, x, TestimonialMid, y, z, TestimonialTail, author);
    TestimonialSlots(n, TestimonialHead, x, TestimonialMid, y, z, TestimonialTail, role);
  }

  /** The button snippet writes the label, each the property or its default. */
  lemma ButtonWritten(props: Props, n: nat)
    ensures var code := Indented(n, KindLines(props, Button));
      Contains(code, OrDefault(Get(props, "label"), "Button"))
  {
    ButtonEmits(n, OrDefault(Get(props, "label"), "Button"));
  }

  /** The input snippet writes the placeholder, each the property or its default. */
  lemma InputWritten(props: Props, n: nat)
    ensures var code := Indented(n, KindLines(props, Input));
      Contains(code, OrDefault(Get(props, "placeholder"), "Enter text..."))
  {
    InputEmits(n, OrDefault(Get(props, "placeholder"), "Enter text..."));
  }

  /** The card snippet writes the title and content, each the property or its default. */
  lemma CardWritten(props: Props, n: nat)
    ensures var code := Indented(n, KindLines(props, Card));
      && Contains(code, OrDefault(Get(props, "title"), "Card Title"))
      && Contains(code, OrDefault(Get(props, "content"), "Card content goes here"))
  {
    CardEmits(n, OrDefault(Get(props, "title"), "Card Title"), OrDefault(Get(props, "content"), "Card content goes here"));
  }

  /** The navbar snippet writes the title, each the property or its default. */
  lemma NavbarWritten(props: Props, n: nat)
    ensures var code := Indented(n, KindLines(props, Navbar));
      Contains(code, OrDefault(Get(props, "title"), "Site Name"))
  {
    NavbarEmits(n, OrDefault(Get(props, "title"), "Site Name"));
  }

  /** The form snippet writes the submit text, each the property or its default. */
  lemma FormWritten(props: Props, n: nat)
    ensures var code := Indented(n, KindLines(props, Form));
      Contains(code, OrDefault(Get(props, "submitText"), "Submit"))
  {
    FormEmits(n, OrDefault(Get(props, "submitText"), "Submit"));
  }

  /** The hero snippet writes the title, subtitle and button text, each the property or its default. */
  lemma HeroWritten(props: Props, n: nat)
    ensures var code := Indented(n, KindLines(props, Hero));
      && Contains(code, OrDefault(Get(props, "title"), "Welcome to our site"))
      && Contains(code, OrDefault(Get(props, "subtitle"), "This is a hero section for your website"))
      && Contains(code, OrDefault(Get(props, "buttonText"), "Get Started"))
  {
    HeroEmits(n, OrDefault(Get(props, "title"), "Welcome to our site"), OrDefault(Get(props, "subtitle"), "This is a hero section for your website"), OrDefault(Get(props, "buttonText"), "Get Started"));
  }

  /** The testimonial snippet writes the quote, author and role, each the
      property or its default. */
  lemma TestimonialWritten(props: Props, n: nat)
    ensures var code := Indented(n, KindLines(props, Testimonial));
      && Contains(code, OrDefault(Get(props, "quote"), "This product is amazing! I would definitely recommend it to anyone."))
      && Contains(code, OrDefault(Get(props, "author"), "Jane Doe"))
      && Contains(code, OrDefault(Get(props, "role"), "Customer"))
  {
    TestimonialEmits(n, OrDefault(Get(props, "quote"), "This product is amazing! I would definitely recommend it to anyone."),
                     OrDefault(Get(props, "author"), "Jane Doe"), OrDefault(Get(props, "role"), "Customer"));
  }

  /** Every kind's snippet has at least one line. */
  lemma KindLinesNonEmpty(props: Props, k: Kind)
    ensures KindLines(props, k) != []
  {
    if k == Gallery {
      assert GalleryLines[0] in GalleryLines;
    }
  }

  /** A descriptor whose type names kind `k` is written by that kind's
      snippet. */
  lemma KindCode(c: Component, k: Kind, n: nat)
    requires c.typ == KindName(k)
    ensures GenerateComponentCode(c, n) == Indented(n, KindLines(c.props, k))
  {
    ParseKindName(k);
  }

  /** A testimonial without a role is written with the role "Customer". */
  lemma DefaultRoleEmitted(c: Component, n: nat)
    requires c.typ == "testimonial" && "role" !in c.props
    ensures Contains(GenerateComponentCode(c, n), "Customer")
  {
    KindCode(c, Testimonial, n);
    assert OrDefault(Get(c.props, "role"), "Customer") == "Customer";
    TestimonialWritten(c.props, n);
  }

  /** The placeholder comment is stored exactly when the list is empty. */
  lemma Framed(h: string, b: string, f: string)
    ensures |h + b + f| >= |h| + |f|
    ensures (h + b + f)[..|h|] == h
    ensures (h + b + f)[|h + b + f| - |f|..] == f
  {
  }

  /** A non-empty list is written between the fixed header and footer. */
  lemma CodeFrame(cs: seq<Component>)
    requires cs != []
    ensures |Code(cs)| >= |Header| + |Footer|
    ensures Code(cs)[..|Header|] == Header
    ensures Code(cs)[|Code(cs)| - |Footer|..] == Footer
  {
    if |cs| == 1 {
      Framed(Header, GenerateComponentCode(cs[0], 4), Footer);
    } else {
      var body := Open + Snippets(cs, 6) + Close;
      Assoc4(Header, Open, Snippets(cs, 6), Close);
      Framed(Header, body, Footer);
    }
  }

  /** The last descriptor's snippet closes the snippets of a list. */
  lemma SnippetsLast(cs: seq<Component>, n: nat)
    requires cs != []
    ensures Snippets(cs, n) == Snippets(cs[..|cs| - 1], n) + GenerateComponentCode(cs[|cs| - 1], n)
  {
  }

  /** The snippets of two lists one after the other are the snippets of the
      joined list: each descriptor is written in list order. */
  lemma {:induction false} SnippetsAppend(a: seq<Component>, b: seq<Component>, n: nat)
    ensures Snippets(a + b, n) == Snippets(a, n) + Snippets(b, n)
    decreases |b|
  {
    if b == [] {
      assert a + b == a;
    } else {
      var ab, init, last := a + b, b[..|b| - 1], b[|b| - 1];
      assert ab[..|ab| - 1] == a + init;
      assert ab[|ab| - 1] == last;
      SnippetsAppend(a, init, n);
      SnippetsLast(ab, n);
      SnippetsLast(b, n);
      Assoc(Snippets(a, n), Snippets(init, n), GenerateComponentCode(last, n));
    }
  }

  /** Whatever one descriptor's snippet shows, the concatenated snippets
      show. */
  lemma {:induction false} SnippetsContain(cs: seq<Component>, i: nat, n: nat, s: string)
    requires i < |cs| && Contains(GenerateComponentCode(cs[i], n), s)
    ensures Contains(Snippets(cs, n), s)
  {
    var last := |cs| - 1;
    if i == last {
      ContainsRight(Snippets(cs[..last], n), GenerateComponentCode(cs[last], n), s);
    } else {
      assert cs[..last][i] == cs[i];
      SnippetsContain(cs[..last], i, n, s);
      ContainsLeft(Snippets(cs[..last], n), GenerateComponentCode(cs[last], n), s);
    }
  }

  /** The indentation each descriptor's snippet gets: 4 alone, 6 inside the
      wrapper `div`. */
  function IndentOf(cs: seq<Component>): nat
  {
    if |cs| == 1 then 4 else 6
  }

  /** Whatever a descriptor's snippet shows, the stored code shows. */
  lemma CodeContains(cs: seq<Component>, i: nat, s: string)
    requires i < |cs| && Contains(GenerateComponentCode(cs[i], IndentOf(cs)), s)
    ensures Contains(Code(cs), s)
  {
    if |cs| == 1 {
      ContainsRight(Header, GenerateComponentCode(cs[0], 4), s);
      ContainsLeft(Header + GenerateComponentCode(cs[0], 4), Footer, s);
    } else {
      SnippetsContain(cs, i, 6, s);
      ContainsRight(Header + Open, Snippets(cs, 6), s);
      ContainsLeft(Header + Open + Snippets(cs, 6), Close, s);
      ContainsLeft(Header + Open + Snippets(cs, 6) + Close, Footer, s);
    }
  }

  /** A descriptor whose type the `switch` does not know is written as a
      comment naming that type. */
  lemma UnknownTypeEmitted(c: Component, n: nat)
    requires ParseKind(c.typ).None?
    ensures GenerateComponentCode(c, n) == Spaces(n) + UnknownLine(c.typ) + "\n"
  {
  }
}
