/** app/api/templates/route.ts: the template library over HTTP. */
module TemplatesRoute {
  import opened Wrappers
  import opened JsStrings
  import opened TemplateLibrary

  datatype CategoryCount = CategoryCount(name: string, count: nat)

  datatype Body =
    | Code(code: string)
    | Templates(templates: seq<Template>)
    | Categories(categories: seq<CategoryCount>)
    | Failure(error: string)
    | Builtin(name: string)  // a built-in inherited from Object.prototype, serialised in place of templates or code

  datatype Response = Response(status: int, body: Body)

  /** Every category with its number of templates, in table order. */
  function Counts(lib: seq<Category>): (r: seq<CategoryCount>)
    ensures |r| == |lib|
    ensures forall i :: 0 <= i < |lib| ==> r[i] == CategoryCount(lib[i].name, |lib[i].templates|)
  {
    if lib == [] then [] else [CategoryCount(lib[0].name, |lib[0].templates|)] + Counts(lib[1..])
  }

  /**
   * `GET`: with a category and a template, that template's text or 404; with a category only,
   * its templates or 404; otherwise the category listing. Empty parameters count as absent.
   */
  function Get(category: Option<string>, template: Option<string>): (r: Response)
    ensures r.status == 200 || r.status == 404
    ensures Truthy(category) && Truthy(template) ==>
              (r.status == 200 <==> GetTemplate(category.value, template.value) != "")
    ensures Truthy(category) && Truthy(template) && r.status == 200 ==>
              r.body == Code(GetTemplate(category.value, template.value))
    ensures Truthy(category) && Truthy(template) && r.status == 404 ==> r.body == Failure("Template not found")
    ensures Truthy(category) && !Truthy(template) ==>
              (r.status == 200 <==> FindCategory(Library, category.value).Some?)
    ensures Truthy(category) && !Truthy(template) && FindCategory(Library, category.value).Some? ==>
              r.body == Templates(FindCategory(Library, category.value).value.templates)
    ensures Truthy(category) && !Truthy(template) && FindCategory(Library, category.value).None? ==>
              r.body == Failure("Category not found")
    ensures !Truthy(category) ==> r == Response(200, Categories(Counts(Library)))
  {
    if Truthy(category) && Truthy(template) then
      var code := GetTemplate(category.value, template.value);
      if code != "" then Response(200, Code(code)) else Response(404, Failure("Template not found"))
    else if Truthy(category) then
      match FindCategory(Library, category.value)
      case Some(c) => Response(200, Templates(c.templates))
      case None => Response(404, Failure("Category not found"))
    else Response(200, Categories(Counts(Library)))
  }

  /** A template parameter without a category is ignored. */
  lemma TemplateWithoutCategoryIgnored(template: Option<string>)
    ensures Get(None, template) == Get(None, None)
    ensures Get(Some(""), template) == Get(None, None)
  {
  }

  /** The listing names the six categories with 3, 3, 2, 2, 2 and 1 templates. */
  lemma CategoryListing()
    ensures Get(None, None).body.categories == [
      CategoryCount("buttons", 3), CategoryCount("cards", 3), CategoryCount("forms", 2),
      CategoryCount("navigation", 2), CategoryCount("hero", 2), CategoryCount("dashboard", 1)]
  {
    LibraryShape();
  }

  /** A pair answers 200 exactly when it is listed, and then carries that template's text. */
  lemma PairLookup(category: string, template: string, i: nat, a: nat)
    requires category != "" && template != ""
    requires i < |Library| && a < |Library[i].templates|
    requires Library[i].name == category && Library[i].templates[a].name == template
    ensures Get(Some(category), Some(template)) == Response(200, Code(Library[i].templates[a].code))
  {
    GetTemplateHitsListedPairs(category, template);
  }

  /** The corrected route answers 404 for the inherited name "constructor", as a category and as a template. */
  lemma InheritedCategoryNotFound()
    ensures Get(Some("constructor"), None).status == 404
    ensures Get(Some("buttons"), Some("constructor")).status == 404
  {
    InheritedNamesAreFound();
  }

  // ---- The route as written -------------------------------------------------------------

  /**
   * `GET` as written: the category-only branch indexes the table with `allTemplates[category]`
   * and the pair branch calls `getTemplate` as written, so inherited built-ins are found.
   * `member` supplies what a built-in holds under a name (see `GetTemplateAsWritten`).
   */
  function GetAsWritten(category: Option<string>, template: Option<string>, member: (string, string) -> Property<string>)
    : (r: Response)
    ensures r.status == 200 || r.status == 404
    ensures !Truthy(category) ==> r == Get(category, template)
  {
    if Truthy(category) && Truthy(template) then
      match GetTemplateAsWritten(category.value, template.value, member)
      case Own(code) => if code != "" then Response(200, Code(code)) else Response(404, Failure("Template not found"))
      case Inherited(builtin) => Response(200, Builtin(builtin))
      case Absent => Response(404, Failure("Template not found"))
    else if Truthy(category) then
      match CategoryAsWritten(category.value)
      case Own(c) => Response(200, Templates(c.templates))
      case Inherited(builtin) => Response(200, Builtin(builtin))
      case Absent => Response(404, Failure("Category not found"))
    else Response(200, Categories(Counts(Library)))
  }

  /** Away from the inherited names, the route as written and the corrected route answer alike. */
  lemma AsWrittenAgreesOffPrototype(category: Option<string>, template: Option<string>,
                                    member: (string, string) -> Property<string>)
    requires category.Some? ==> category.value !in InheritedNames
    requires template.Some? ==> template.value !in InheritedNames
    ensures GetAsWritten(category, template, member) == Get(category, template)
  {
    if Truthy(category) && Truthy(template) {
      match FindCategory(Library, category.value)
      case None =>
      case Some(c) =>
        assert GetTemplateAsWritten(category.value, template.value, member) == Own(GetTemplate(category.value, template.value));
    }
  }

  /** As written, `?category=constructor` is answered 200 with the inherited built-in. */
  lemma InheritedCategoryFound(member: (string, string) -> Property<string>)
    ensures GetAsWritten(Some("constructor"), None, member) == Response(200, Builtin("constructor"))
  {
    InheritedNamesAreFound();
    assert "constructor" == InheritedNames[0];
  }

  /** As written, `?category=buttons&template=constructor` is answered 200 with the inherited built-in. */
  lemma InheritedTemplateFound(member: (string, string) -> Property<string>)
    ensures GetAsWritten(Some("buttons"), Some("constructor"), member) == Response(200, Builtin("constructor"))
  {
    InheritedNamesAreFound();
    assert "constructor" == InheritedNames[0];
  }
}
