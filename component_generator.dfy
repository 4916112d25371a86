/**
 * utils/component-generator.ts: source text for a UI component chosen by a type tag, filled in
 * from loosely typed props. Only the parts that depend on the inputs are kept verbatim; the
 * fixed scaffolding of each template is abbreviated with "…".
 */
module ComponentGenerator {
  import opened Wrappers
  import opened JsStrings
  import opened Seqs

  /** One entry of `props.fields`; every key may be absent. `caption` is the `label` key. */
  datatype Field = Field(kind: Option<string>, caption: Option<string>, name: Option<string>, placeholder: Option<string>)

  /**
   * The props the generators read; every key may be absent. `json` is the text
   * `JSON.stringify(props)` produces, which only the generic generator prints.
   */
  datatype Props = Props(
    text: Option<string>,
    variant: Option<string>,
    size: Option<string>,
    onClick: Option<string>,
    title: Option<string>,
    description: Option<string>,
    image: Option<string>,
    footer: Option<string>,
    fields: Option<seq<Field>>,
    submitText: Option<string>,
    json: string)

  /** `{}`. */
  const EmptyProps: Props := Props(None, None, None, None, None, None, None, None, None, None, "{}")

  datatype ComponentOptions = ComponentOptions(
    kind: string,
    props: Option<Props>,
    children: Option<string>,
    framework: Option<string>)

  /** The ten type tags with a generator of their own. */
  const TypeNames: seq<string> :=
    ["button", "card", "form", "table", "modal", "navbar", "sidebar", "dashboard", "landing", "blog"]

  /** The tags whose generator ignores props and framework. */
  const ConstantTypes: seq<string> := ["table", "modal", "navbar", "sidebar", "dashboard", "landing", "blog"]

  function ExportLine(name: string): string {
    "export default " + name + ";"
  }

  predicate EndsWith(s: string, t: string) {
    |t| <= |s| && s[|s| - |t|..] == t
  }

  lemma EndsWithAppend(a: string, t: string)
    ensures EndsWith(a + t, t)
  {
    assert (a + t)[|a|..] == t;
  }

  // ---- Button ------------------------------------------------------------------------------

  /** The Tailwind text size of the HTML button: 'sm' and 'lg' are kept, anything else is 'base'. */
  function SizeClass(size: string): (r: string)
    ensures r == "sm" || r == "lg" || r == "base"
    ensures size == "sm" || size == "lg" ==> r == size
    ensures size != "sm" && size != "lg" ==> r == "base"
  {
    if size == "sm" then "sm" else if size == "lg" then "lg" else "base"
  }

  function HtmlButton(size: string, text: string): string {
    "<button class=\"… " + ("text-" + SizeClass(size) + "\"") + (">\n  " + text + "\n</button>")
  }

  /** The React button's source up to its default export. */
  function ReactButtonHead(name: string, variant: string, size: string, text: string, onClick: Option<string>): string {
    "import { Button }" + " from \"@/components/ui/button\";\n\nconst " + name + " = () => {\n  …\n    "
    + OrElse(onClick, "// Add your onClick logic here")
    + "\n  …\n      variant=\"" + variant + "\"\n      size=\"" + size + "\"\n  …\n      {"
    + JsonQuote(text) + "}\n  …\n};\n\n"
  }

  /**
   * `generateButton`. Destructuring defaults apply only to absent keys. The HTML button is
   * markup; the React one is a module exported as the capitalised variant plus "Button".
   */
  function Button(props: Props, framework: string): (r: string)
    ensures |r| > 0
    ensures framework == "html" ==> r[0] == '<'
    ensures framework != "html" ==>
              r[0] == 'i' && EndsWith(r, ExportLine(Capitalize(props.variant.GetOr("primary")) + "Button"))
  {
    var text := props.text.GetOr("Button");
    var variant := props.variant.GetOr("primary");
    var size := props.size.GetOr("md");
    if framework == "html" then HtmlButton(size, text)
    else
      var name := Capitalize(variant) + "Button";
      var head := ReactButtonHead(name, variant, size, text, props.onClick);
      assert head[0] == 'i';
      assert (head + ExportLine(name))[0] == head[0];
      EndsWithAppend(head, ExportLine(name));
      head + ExportLine(name)
  }

  /** Without a variant, the React button is exported as "PrimaryButton". */
  lemma ReactButtonName(props: Props, framework: string)
    requires framework != "html" && props.variant.None?
    ensures EndsWith(Button(props, framework), ExportLine("PrimaryButton"))
  {
    DefaultButtonName();
  }

  lemma DefaultButtonName()
    ensures Capitalize("primary") + "Button" == "PrimaryButton"
  {
    assert Capitalize("primary") == "Primary";
  }

  /** The HTML button carries the size class and the text as given. */
  lemma HtmlButtonSize(props: Props)
    ensures Includes(Button(props, "html"), "text-" + SizeClass(props.size.GetOr("md")) + "\"")
    ensures Includes(Button(props, "html"), props.text.GetOr("Button"))
  {
    var cls := "text-" + SizeClass(props.size.GetOr("md")) + "\"";
    var text := props.text.GetOr("Button");
    IncludesMiddle("<button class=\"… ", cls, ">\n  " + text + "\n</button>");
    IncludesMiddle(">\n  ", text, "\n</button>");
    IncludesPrefix("<button class=\"… " + cls, ">\n  " + text + "\n</button>", text);
  }

  // ---- Card --------------------------------------------------------------------------------

  /** The React card's component name: the title without whitespace, or "GeneratedCard". */
  function CardName(title: Option<string>): (r: string)
    ensures forall k :: 0 <= k < |r| ==> !IsWhitespace(r[k])
    ensures !Truthy(title) ==> r == "GeneratedCard"
    ensures Truthy(title) ==> forall c :: c in r <==> c in title.value && !IsWhitespace(c)
  {
    if Truthy(title) then RemoveWhitespace(title.value) else "GeneratedCard"
  }

  /** A title of two words separated by a space names the card by the two words joined. */
  lemma CardNameJoinsWords(first: string, second: string)
    requires first != []
    ensures CardName(Some(first + " " + second)) == RemoveWhitespace(first) + RemoveWhitespace(second)
  {
    var title := first + " " + second;
    assert |title| > 0;
    RemoveWhitespaceJoinsWords(first, second);
  }

  /** Two words without whitespace, separated by a space, name the card by the two words joined. */
  lemma CardNameOfPlainWords(first: string, second: string)
    requires first != []
    requires forall k :: 0 <= k < |first| ==> !IsWhitespace(first[k])
    requires forall k :: 0 <= k < |second| ==> !IsWhitespace(second[k])
    ensures CardName(Some(first + " " + second)) == first + second
  {
    CardNameJoinsWords(first, second);
    RemoveWhitespaceKeepsPlain(first);
    RemoveWhitespaceKeepsPlain(second);
  }

  /** The title "My Card" names the component "MyCard". */
  lemma CardNameExample()
    ensures CardName(Some("My Card")) == "MyCard"
  {
    assert "My Card" == "My" + " " + "Card";
    assert "My" + "Card" == "MyCard";
    CardNameOfPlainWords("My", "Card");
  }

  function HtmlCard(props: Props, title: string, description: string): string {
    "<div class=\"…\">\n  "
    + (if Truthy(props.image) then "<img class=\"w-full\" src=\"" + props.image.value + "\" alt=\"" + Show(props.title) + "\">" else "")
    + "\n  …" + title + "…" + description + "…\n  "
    + (if Truthy(props.footer) then "<div class=\"…\">…#" + props.footer.value + "…</div>" else "")
    + "\n</div>"
  }

  /** The React card's source up to its default export. */
  function ReactCardHead(props: Props, name: string, title: string, description: string): string {
    "import { Card, … }" + " from \"@/components/ui/card\";\n\nconst " + ReactCardDecl(props, name, title, description)
  }

  function ReactCardDecl(props: Props, name: string, title: string, description: string): string {
    name + " = () => {\n  …\n        <CardTitle>" + title
    + "</CardTitle>\n        <CardDescription>" + description + "</CardDescription>\n  …\n      "
    + (if Truthy(props.footer) then "<CardFooter>\n        <p>" + props.footer.value + "</p>\n      </CardFooter>" else "")
    + "\n  …\n};\n\n"
  }

  /**
   * `generateCard`. The HTML card is markup; the React one is a module exported under
   * `CardName(title)`, which is "GeneratedCard" for a falsy title.
   */
  function Card(props: Props, framework: string): (r: string)
    ensures |r| > 0
    ensures framework == "html" ==> r[0] == '<'
    ensures framework != "html" ==> r[0] == 'i' && EndsWith(r, ExportLine(CardName(props.title)))
  {
    var title := OrElse(props.title, "Card Title");
    var description := OrElse(props.description, "Card description goes here.");
    if framework == "html" then
      var html := HtmlCard(props, title, description);
      assert html[0] == '<';
      html
    else
      var name := CardName(props.title);
      var head := ReactCardHead(props, name, title, description);
      assert head[0] == 'i';
      assert (head + ExportLine(name))[0] == head[0];
      EndsWithAppend(head, ExportLine(name));
      head + ExportLine(name)
  }

  // ---- Form --------------------------------------------------------------------------------

  /** The field types that produce markup; an absent type counts as 'text'. */
  predicate Renders(f: Field) {
    var kind := f.kind.GetOr("text");
    kind == "text" || kind == "email" || kind == "password" || kind == "textarea"
  }

  function LabelText(f: Field): string {
    OrElse(f.caption, Show(f.name))
  }

  /** The markup the HTML form adds for one field: '' for a type it does not render. */
  function HtmlFieldMarkup(f: Field): (r: string)
    ensures r != "" <==> Renders(f)
  {
    var kind := f.kind.GetOr("text");
    var name := Show(f.name);
    if kind == "text" || kind == "email" || kind == "password" then
      "\n<div class=\"mb-4\">\n  <label … for=\"" + name + "\">\n    " + LabelText(f) + "\n  </label>\n  <input … id=\""
      + name + "\" type=\"" + kind + "\" placeholder=\"" + OrElse(f.placeholder, "") + "\">\n</div>"
    else if kind == "textarea" then
      "\n<div class=\"mb-4\">\n  <label … for=\"" + name + "\">\n    " + LabelText(f) + "\n  </label>\n  <textarea … id=\""
      + name + "\" placeholder=\"" + OrElse(f.placeholder, "") + "\"></textarea>\n</div>"
    else ""
  }

  /** The markup the React form maps one field to: '' for a type it does not render. */
  function ReactFieldMarkup(f: Field): (r: string)
    ensures r != "" <==> Renders(f)
  {
    var kind := f.kind.GetOr("text");
    var name := Show(f.name);
    if kind == "text" || kind == "email" || kind == "password" then
      "\n      <div>\n        <Label htmlFor=\"" + name + "\">" + LabelText(f) + "</Label>\n        <Input id=\"" + name
      + "\" name=\"" + name + "\" type=\"" + kind + "\" placeholder=\"" + OrElse(f.placeholder, "")
      + "\" value={formData." + name + " || ''} … />\n      </div>"
    else if kind == "textarea" then
      "\n      <div>\n        <Label htmlFor=\"" + name + "\">" + LabelText(f) + "</Label>\n        <textarea id=\"" + name
      + "\" name=\"" + name + "\" placeholder=\"" + OrElse(f.placeholder, "")
      + "\" value={formData." + name + " || ''} … />\n      </div>"
    else ""
  }

  /** A missing type behaves as 'text' in both renderings. */
  lemma MissingTypeIsText(f: Field)
    ensures HtmlFieldMarkup(f.(kind := None)) == HtmlFieldMarkup(f.(kind := Some("text")))
    ensures ReactFieldMarkup(f.(kind := None)) == ReactFieldMarkup(f.(kind := Some("text")))
  {
  }

  /** The markup of each field, concatenated in field order. */
  function Joined(markup: Field -> string, fields: seq<Field>): string
    decreases |fields|
  {
    if fields == [] then "" else Joined(markup, fields[..|fields| - 1]) + markup(fields[|fields| - 1])
  }

  /** Field order is kept: the markup of a concatenation is the concatenation of the markups. */
  lemma {:induction false} JoinedAppend(markup: Field -> string, a: seq<Field>, b: seq<Field>)
    ensures Joined(markup, a + b) == Joined(markup, a) + Joined(markup, b)
    decreases |b|
  {
    if b == [] {
      assert a + b == a;
    } else {
      var init := b[..|b| - 1];
      assert (a + b)[..|a + b| - 1] == a + init;
      assert (a + b)[|a + b| - 1] == b[|b| - 1];
      JoinedAppend(markup, a, init);
    }
  }

  /** Fields that render nothing can be dropped beforehand without changing the output. */
  lemma {:induction false} JoinedSkipsSilentFields(markup: Field -> string, fields: seq<Field>)
    requires forall f :: markup(f) != "" <==> Renders(f)
    ensures Joined(markup, Filter(Renders, fields)) == Joined(markup, fields)
    decreases |fields|
  {
    if fields != [] {
      var init := fields[..|fields| - 1];
      var last := fields[|fields| - 1];
      assert fields == init + [last];
      FilterAppend(Renders, init, [last]);
      JoinedAppend(markup, Filter(Renders, init), Filter(Renders, [last]));
      JoinedSkipsSilentFields(markup, init);
      assert Filter(Renders, [last]) == (if Renders(last) then [last] else []);
      if Renders(last) {
        assert Joined(markup, [last]) == Joined(markup, []) + markup(last);
      }
    }
  }

  /** Both renderings keep exactly the text, email, password and textarea fields, in order. */
  lemma FormFieldsFiltered(fields: seq<Field>)
    ensures Joined(HtmlFieldMarkup, Filter(Renders, fields)) == Joined(HtmlFieldMarkup, fields)
    ensures Joined(ReactFieldMarkup, Filter(Renders, fields)) == Joined(ReactFieldMarkup, fields)
  {
    JoinedSkipsSilentFields(HtmlFieldMarkup, fields);
    JoinedSkipsSilentFields(ReactFieldMarkup, fields);
  }

  /** The HTML form's `forEach` loop accumulating `formFields +=`. */
  method HtmlFormFields(fields: seq<Field>) returns (formFields: string)
    ensures formFields == Joined(HtmlFieldMarkup, fields)
  {
    formFields := "";
    for i := 0 to |fields|
      invariant formFields == Joined(HtmlFieldMarkup, fields[..i])
    {
      assert fields[..i + 1][..i] == fields[..i];
      formFields := formFields + HtmlFieldMarkup(fields[i]);
    }
    assert fields[..|fields|] == fields;
  }

  function HtmlForm(formFields: string, submitText: string): string {
    "<form class=\"…\">\n  " + formFields + "\n  …\n      " + submitText + "\n  …\n</form>"
  }

  function ReactForm(fields: seq<Field>, submitText: string): string {
    "import { useState }" + " from 'react';\n…\n    <form onSubmit={handleSubmit} …>\n      "
    + Joined(ReactFieldMarkup, fields) + "\n  …\n        " + submitText + "\n  …\n};\n\n" + ExportLine("GeneratedForm")
  }

  /** `generateForm`, as the value it produces: markup for HTML, a module otherwise. */
  function Form(props: Props, framework: string): (r: string)
    ensures |r| > 0
    ensures framework == "html" ==> r[0] == '<'
    ensures framework != "html" ==> r[0] == 'i'
  {
    var fields := props.fields.GetOr([]);
    var submitText := props.submitText.GetOr("Submit");
    if framework == "html" then HtmlForm(Joined(HtmlFieldMarkup, fields), submitText)
    else
      var react := ReactForm(fields, submitText);
      assert react[0] == 'i';
      react
  }

  /** `generateForm`. */
  method GenerateForm(props: Props, framework: string) returns (code: string)
    ensures code == Form(props, framework)
  {
    var fields := props.fields.GetOr([]);
    var submitText := props.submitText.GetOr("Submit");
    if framework == "html" {
      var formFields := HtmlFormFields(fields);
      code := HtmlForm(formFields, submitText);
    } else {
      code := ReactForm(fields, submitText);
    }
  }

  // ---- Fixed generators and the generic one ------------------------------------------------

  /** The shape of the seven fixed generators: a module exporting `component`. */
  function Fixed(component: string): (r: string)
    ensures |r| > 0 && r[0] == 'i'
    ensures EndsWith(r, ExportLine(component))
  {
    var head := "import …;\n\nconst " + component + " = () => {\n  …\n};\n\n";
    assert (head + ExportLine(component))[0] == head[0];
    EndsWithAppend(head, ExportLine(component));
    head + ExportLine(component)
  }

  const Table: string := Fixed("GeneratedTable")
  const Modal: string := Fixed("GeneratedModal")
  const Navbar: string := Fixed("Navbar")
  const Sidebar: string := Fixed("Sidebar")
  const Dashboard: string := Fixed("Dashboard")
  const LandingPage: string := Fixed("LandingPage")
  const BlogComponent: string := Fixed("BlogComponent")

  /** `generateGenericComponent`: prints the tag, the props' JSON text and the capitalised tag. */
  function Generic(kind: string, props: Props): (r: string)
    ensures StartsWithComment(r)
  {
    var head := "// Generic component of type: ";
    assert (head + kind + GenericRest(kind, props))[0] == head[0];
    head + kind + GenericRest(kind, props)
  }

  function GenericRest(kind: string, props: Props): string {
    "\n// Properties: " + props.json + GenericHeading(kind)
  }

  function GenericHeading(kind: string): string {
    "\n…" + ("Generated " + Capitalize(kind)) + ("…\n" + ExportLine("GeneratedComponent"))
  }

  lemma GenericEmbedsType(kind: string, props: Props)
    ensures Includes(Generic(kind, props), kind)
    ensures Includes(Generic(kind, props), props.json)
    ensures Includes(Generic(kind, props), "Generated " + Capitalize(kind))
  {
    var head := "// Generic component of type: ";
    var title := "Generated " + Capitalize(kind);
    IncludesMiddle(head, kind, GenericRest(kind, props));
    IncludesMiddle("\n// Properties: ", props.json, GenericHeading(kind));
    IncludesPrefix(head + kind, GenericRest(kind, props), props.json);
    IncludesMiddle("\n…", title, "…\n" + ExportLine("GeneratedComponent"));
    IncludesPrefix("\n// Properties: " + props.json, GenericHeading(kind), title);
    IncludesPrefix(head + kind, GenericRest(kind, props), title);
  }

  // ---- Dispatch ----------------------------------------------------------------------------

  datatype Kind = ButtonKind | CardKind | FormKind | TableKind | ModalKind | NavbarKind
                | SidebarKind | DashboardKind | LandingKind | BlogKind | OtherKind

  /** The `switch (type)` cases. */
  function KindOf(tag: string): (k: Kind)
    ensures k == OtherKind <==> tag !in TypeNames
  {
    if tag == "button" then ButtonKind
    else if tag == "card" then CardKind
    else if tag == "form" then FormKind
    else if tag == "table" then TableKind
    else if tag == "modal" then ModalKind
    else if tag == "navbar" then NavbarKind
    else if tag == "sidebar" then SidebarKind
    else if tag == "dashboard" then DashboardKind
    else if tag == "landing" then LandingKind
    else if tag == "blog" then BlogKind
    else OtherKind
  }

  /** `generateSpecificComponent`, as the value it produces. Absent options take their defaults. */
  function SpecificComponent(options: ComponentOptions): string {
    Dispatch(options.kind, options.props.GetOr(EmptyProps), options.framework.GetOr("react"))
  }

  /**
   * The `switch (type)` with the defaults already applied. Every generator writes something,
   * and only the generic one starts with a comment.
   */
  function Dispatch(kind: string, props: Props, framework: string): (r: string)
    ensures |r| > 0
    ensures StartsWithComment(r) <==> KindOf(kind) == OtherKind
  {
    match KindOf(kind)
    case ButtonKind => Button(props, framework)
    case CardKind => Card(props, framework)
    case FormKind => Form(props, framework)
    case TableKind => Table
    case ModalKind => Modal
    case NavbarKind => Navbar
    case SidebarKind => Sidebar
    case DashboardKind => Dashboard
    case LandingKind => LandingPage
    case BlogKind => BlogComponent
    case OtherKind => Generic(kind, props)
  }

  /** `generateSpecificComponent`: the form generator is the one case that runs a loop. */
  method GenerateSpecificComponent(options: ComponentOptions) returns (code: string)
    ensures code == SpecificComponent(options)
  {
    var props := options.props.GetOr(EmptyProps);
    var framework := options.framework.GetOr("react");
    if KindOf(options.kind) == FormKind {
      code := GenerateForm(props, framework);
    } else {
      code := Dispatch(options.kind, props, framework);
    }
  }

  /** The text starts with a `//` comment line. */
  predicate StartsWithComment(code: string) {
    |code| > 0 && code[0] == '/'
  }

  /** Exactly the tags outside the ten named ones reach the generic generator, whose output alone starts with a comment. */
  lemma GenericIffUnknownType(options: ComponentOptions)
    ensures StartsWithComment(SpecificComponent(options)) <==> options.kind !in TypeNames
  {
  }

  /** Absent props, children and framework behave as `{}`, '' and 'react'; children are never read. */
  lemma Defaults(kind: string, children: Option<string>)
    ensures SpecificComponent(ComponentOptions(kind, None, children, None))
            == SpecificComponent(ComponentOptions(kind, Some(EmptyProps), Some(""), Some("react")))
  {
  }

  /** The seven fixed generators ignore props and framework. */
  lemma ConstantOutputs(a: ComponentOptions, b: ComponentOptions)
    requires a.kind == b.kind && a.kind in ConstantTypes
    ensures SpecificComponent(a) == SpecificComponent(b)
  {
    var k := KindOf(a.kind);
    assert k != ButtonKind && k != CardKind && k != FormKind && k != OtherKind;
  }
}
