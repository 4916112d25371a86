/**
 * utils/template-library.ts: a fixed two-level table, category name to template name to the
 * template's source text, and its lookup.
 */
module TemplateLibrary {
  import opened Wrappers

  datatype Template = Template(name: string, code: string)
  datatype Category = Category(name: string, templates: seq<Template>)

  /** A stand-in for a template's source text: its component declaration and default export. */
  function Stub(component: string): (code: string)
    ensures code != ""
  {
    "const " + component + " = () => {\n  …\n};\n\nexport default " + component + ";"
  }

  const PrimaryButtonCode: string := "import { Button } from \"@/components/ui/button\";\n\n" + Stub("PrimaryButton")

  /** `TEMPLATE_LIBRARY`, in declaration order. */
  const Library: seq<Category> := [
    Category("buttons", [
      Template("primary", PrimaryButtonCode),
      Template("secondary", Stub("SecondaryButton")),
      Template("icon", Stub("IconButton"))]),
    Category("cards", [
      Template("basic", Stub("BasicCard")),
      Template("withImage", Stub("CardWithImage")),
      Template("horizontal", Stub("HorizontalCard"))]),
    Category("forms", [
      Template("login", Stub("LoginForm")),
      Template("contact", Stub("ContactForm"))]),
    Category("navigation", [
      Template("navbar", Stub("Navbar")),
      Template("sidebar", Stub("Sidebar"))]),
    Category("hero", [
      Template("basic", Stub("HeroSection")),
      Template("withStats", Stub("HeroWithStats"))]),
    Category("dashboard", [
      Template("basic", Stub("Dashboard"))])
  ]

  /** No key occurs twice at either level, as in any object literal. */
  predicate UniqueKeys(lib: seq<Category>) {
    && (forall i, j :: 0 <= i < j < |lib| ==> lib[i].name != lib[j].name)
    && (forall i :: 0 <= i < |lib| ==>
          forall a, b :: 0 <= a < b < |lib[i].templates| ==> lib[i].templates[a].name != lib[i].templates[b].name)
  }

  /** Every stored template has non-empty source text. */
  predicate NonEmptyCodes(lib: seq<Category>) {
    forall i :: 0 <= i < |lib| ==> forall a :: 0 <= a < |lib[i].templates| ==> lib[i].templates[a].code != ""
  }

  lemma LibraryWellFormed()
    ensures UniqueKeys(Library)
    ensures NonEmptyCodes(Library)
  {
  }

  /** The shape of the table: six categories with 3, 3, 2, 2, 2 and 1 templates. */
  lemma LibraryShape()
    ensures |Library| == 6
    ensures Library[0].name == "buttons" && |Library[0].templates| == 3
    ensures Library[1].name == "cards" && |Library[1].templates| == 3
    ensures Library[2].name == "forms" && |Library[2].templates| == 2
    ensures Library[3].name == "navigation" && |Library[3].templates| == 2
    ensures Library[4].name == "hero" && |Library[4].templates| == 2
    ensures Library[5].name == "dashboard" && |Library[5].templates| == 1
  {
  }

  /** The category stored under `name` as an own key of the table, if any. */
  function FindCategory(lib: seq<Category>, name: string): (r: Option<Category>)
    ensures r.Some? ==> r.value in lib && r.value.name == name
    ensures r.None? <==> forall i :: 0 <= i < |lib| ==> lib[i].name != name
  {
    if lib == [] then None
    else if lib[0].name == name then Some(lib[0])
    else FindCategory(lib[1..], name)
  }

  /** The template stored under `name` in a category's own keys, if any. */
  function FindTemplate(templates: seq<Template>, name: string): (r: Option<string>)
    ensures r.Some? ==> exists a :: 0 <= a < |templates| && templates[a].name == name && templates[a].code == r.value
    ensures r.None? <==> forall a :: 0 <= a < |templates| ==> templates[a].name != name
  {
    if templates == [] then None
    else if templates[0].name == name then Some(templates[0].code)
    else
      var r := FindTemplate(templates[1..], name);
      assert r.Some? ==> templates[1..][0..] == templates[1..];
      r
  }

  /** `getTemplate`, reading only the table's own keys; '' on a miss at either level. */
  function GetTemplate(category: string, template: string): (r: string)
    ensures FindCategory(Library, category).None? ==> r == ""
    ensures r != "" ==> FindCategory(Library, category).Some?
                        && FindTemplate(FindCategory(Library, category).value.templates, template) == Some(r)
  {
    match FindCategory(Library, category)
    case None => ""
    case Some(c) => FindTemplate(c.templates, template).GetOr("")
  }

  /** With unique category names, a listed category is the one the lookup finds. */
  lemma CategoryAt(lib: seq<Category>, name: string, i: nat)
    requires UniqueKeys(lib) && i < |lib| && lib[i].name == name
    ensures FindCategory(lib, name) == Some(lib[i])
  {
    var c := FindCategory(lib, name).value;
    var j :| 0 <= j < |lib| && lib[j] == c;
    if j < i {
      assert lib[j].name != lib[i].name;
    } else if i < j {
      assert lib[i].name != lib[j].name;
    }
  }

  /** With unique template names, a listed template is the one the lookup finds. */
  lemma TemplateAt(templates: seq<Template>, name: string, a: nat)
    requires forall x, y :: 0 <= x < y < |templates| ==> templates[x].name != templates[y].name
    requires a < |templates| && templates[a].name == name
    ensures FindTemplate(templates, name) == Some(templates[a].code)
  {
    var code := FindTemplate(templates, name).value;
    var b :| 0 <= b < |templates| && templates[b].name == name && templates[b].code == code;
    if b < a {
      assert templates[b].name != templates[a].name;
    } else if a < b {
      assert templates[a].name != templates[b].name;
    }
  }

  /** A lookup hits exactly the listed pairs, and then yields that pair's text. */
  lemma {:induction false} GetTemplateHitsListedPairs(category: string, template: string)
    ensures GetTemplate(category, template) != "" <==>
              exists i, a :: 0 <= i < |Library| && 0 <= a < |Library[i].templates|
                             && Library[i].name == category && Library[i].templates[a].name == template
    ensures forall i, a :: 0 <= i < |Library| && 0 <= a < |Library[i].templates|
                           && Library[i].name == category && Library[i].templates[a].name == template
                           ==> GetTemplate(category, template) == Library[i].templates[a].code
  {
    LibraryWellFormed();
    forall i, a | 0 <= i < |Library| && 0 <= a < |Library[i].templates|
                  && Library[i].name == category && Library[i].templates[a].name == template
      ensures GetTemplate(category, template) == Library[i].templates[a].code != ""
    {
      CategoryAt(Library, category, i);
      TemplateAt(Library[i].templates, template, a);
    }
    if GetTemplate(category, template) != "" {
      var c := FindCategory(Library, category).value;
      var i :| 0 <= i < |Library| && Library[i] == c;
      var a :| 0 <= a < |c.templates| && c.templates[a].name == template
               && c.templates[a].code == GetTemplate(category, template);
      assert Library[i].templates[a].name == template;
    }
  }

  /** The documented example: ("buttons", "primary") yields the PrimaryButton source. */
  lemma PrimaryButtonExample()
    ensures GetTemplate("buttons", "primary") == PrimaryButtonCode
  {
    GetTemplateHitsListedPairs("buttons", "primary");
    assert Library[0].templates[0].name == "primary";
  }

  /** Unknown category, or unknown template in a known category: ''. */
  lemma GetTemplateMisses(template: string)
    ensures GetTemplate("widgets", template) == ""
    ensures GetTemplate("buttons", "huge") == ""
  {
    assert forall i :: 0 <= i < |Library| ==> Library[i].name[0] != 'w';
    LibraryWellFormed();
    CategoryAt(Library, "buttons", 0);
    assert forall a :: 0 <= a < |Library[0].templates| ==> Library[0].templates[a].name[0] != 'h';
  }

  /** `getAllTemplates`: the table itself. */
  function GetAllTemplates(): (r: seq<Category>)
    ensures r == Library
  {
    Library
  }

  // ---- Bracket lookup as written -------------------------------------------------------
  // `TEMPLATE_LIBRARY[category]` and `categoryTemplates[template]` index plain object
  // literals, so a name the objects inherit from Object.prototype is found as well.

  /** Names every plain object inherits from Object.prototype. */
  const InheritedNames: seq<string> := [
    "constructor", "__proto__", "hasOwnProperty", "isPrototypeOf", "propertyIsEnumerable",
    "toString", "toLocaleString", "valueOf",
    "__defineGetter__", "__defineSetter__", "__lookupGetter__", "__lookupSetter__"]

  /** What `object[name]` yields on an object literal: an own entry, an inherited built-in (truthy), or undefined. */
  datatype Property<T> = Own(value: T) | Inherited(builtin: string) | Absent {
    predicate Truthy() { !Absent? }
  }

  function CategoryAsWritten(name: string): (r: Property<Category>)
    ensures r.Own? <==> FindCategory(Library, name).Some?
  {
    match FindCategory(Library, name)
    case Some(c) => Own(c)
    case None => if name in InheritedNames then Inherited(name) else Absent
  }

  /**
   * The second step of `getTemplate` as written, on a category that exists:
   * `categoryTemplates[template] || ''`. `Own` carries a string, `Inherited` a built-in function.
   */
  function TemplateEntryAsWritten(c: Category, template: string): (r: Property<string>)
    ensures r.Inherited? <==> FindTemplate(c.templates, template).None? && template in InheritedNames
    ensures FindTemplate(c.templates, template).Some? ==> r == Own(FindTemplate(c.templates, template).value)
  {
    match FindTemplate(c.templates, template)
    case Some(code) => Own(code)
    case None => if template in InheritedNames then Inherited(template) else Own("")
  }

  /** `value || ''` on a looked-up property: an absent one becomes the empty string. */
  function OrEmpty(v: Property<string>): (r: Property<string>)
    ensures !r.Absent?
    ensures v.Absent? ==> r == Own("")
    ensures !v.Absent? ==> r == v
  {
    if v.Absent? then Own("") else v
  }

  /**
   * `getTemplate` as written. When the category lookup lands on an inherited built-in, the
   * template name is looked up on that built-in; what a built-in holds under a name is outside
   * this model, so `member(builtin, name)` supplies it.
   */
  function GetTemplateAsWritten(category: string, template: string, member: (string, string) -> Property<string>)
    : (r: Property<string>)
    ensures !r.Absent?
    ensures FindCategory(Library, category).Some? && template !in InheritedNames ==> r == Own(GetTemplate(category, template))
    ensures FindCategory(Library, category).None? && category !in InheritedNames ==> r == Own("")
  {
    match CategoryAsWritten(category)
    case Absent => Own("")
    case Own(c) => TemplateEntryAsWritten(c, template)
    case Inherited(builtin) => OrEmpty(member(builtin, template))
  }

  /**
   * The discrepancy: "constructor" is no category, yet the category lookup finds something
   * truthy; and in a real category the template "constructor" yields a built-in function, not a
   * string, so `getTemplate` does not return '' for it.
   */
  lemma InheritedNamesAreFound()
    ensures FindCategory(Library, "constructor").None?
    ensures CategoryAsWritten("constructor").Truthy()
    ensures FindTemplate(Library[0].templates, "constructor").None?
    ensures TemplateEntryAsWritten(Library[0], "constructor") == Inherited("constructor")
    ensures GetTemplate("buttons", "constructor") == ""
  {
    ConstructorIsNoCategory();
    ConstructorIsNoButton();
    assert "constructor" == InheritedNames[0];
    LibraryWellFormed();
    CategoryAt(Library, "buttons", 0);
  }

  lemma ConstructorIsNoCategory()
    ensures FindCategory(Library, "constructor").None?
  {
    assert forall i :: 0 <= i < |Library| ==> Library[i].name[2] != 'n';
  }

  lemma ConstructorIsNoButton()
    ensures FindTemplate(Library[0].templates, "constructor").None?
  {
    assert forall a :: 0 <= a < |Library[0].templates| ==> Library[0].templates[a].name[0] != 'c';
  }
}
