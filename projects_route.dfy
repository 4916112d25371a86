/**
 * app/api/projects/route.ts: the HTTP handlers over the project store. A request body that is
 * not valid JSON makes `request.json()` throw; it is modelled as an absent body, answered 500.
 */
module ProjectsRoute {
  import opened Wrappers
  import opened JsStrings
  import opened Seqs
  import opened ProjectManager

  datatype Body =
    | ProjectList(projects: seq<Project>)
    | OneProject(project: Project)
    | Deleted
    | Failure(error: string)

  datatype Response = Response(status: int, body: Body)

  const InternalError: Response := Response(500, Failure("Internal server error"))

  /** The keys of a POST body the handler reads. */
  datatype PostBody = PostBody(name: Option<string>, description: Option<string>, components: Option<seq<Component>>)

  /** The keys of a PUT body the handler reads. */
  datatype PutBody = PutBody(id: Option<string>, updates: Option<ProjectUpdates>)

  /** The GET filter: name or description contains the lower-cased query; component names are not searched. */
  predicate ListedFor(p: Project, query: string) {
    Includes(ToLower(p.name), query) || Includes(ToLower(p.description), query)
  }

  /** `GET`: all projects, or with a non-empty `search` those whose name or description matches it. */
  function Get(store: ProjectStore, search: Option<string>): (r: Response)
    reads store
    ensures r.status == 200 && r.body.ProjectList?
    ensures !Truthy(search) ==> r.body.projects == store.projects
    ensures Truthy(search) ==>
              forall p :: p in r.body.projects <==> p in store.projects && ListedFor(p, ToLower(search.value))
  {
    if Truthy(search) then
      var query := ToLower(search.value);
      Response(200, ProjectList(Filter((p: Project) => ListedFor(p, query), store.projects)))
    else Response(200, ProjectList(store.projects))
  }

  /** Everything GET lists for a query, `searchProjects` would return too. */
  lemma GetWithinSearch(store: ProjectStore, search: string)
    ensures forall p :: p in Get(store, Some(search)).body.projects ==> p in store.SearchProjects(search)
  {
  }

  /**
   * The converse fails: a project whose only match is a component name is found by
   * `searchProjects` but not listed by GET.
   */
  lemma GetMissesComponentMatches(store: ProjectStore, c: Component)
    requires c.name == "hero"
    requires store.projects == [Project("p1", "Site", "", [c], 0, 0)]
    ensures store.projects[0] in store.SearchProjects("hero")
    ensures store.projects[0] !in Get(store, Some("hero")).body.projects
  {
    var p := store.projects[0];
    assert ToLower("hero") == "hero";
    assert ToLower(c.name) == "hero";
    assert OccursAt(ToLower(p.components[0].name), "hero", 0);
    assert Matches(p, ToLower("hero"));
    assert !Includes(ToLower("Site"), "hero") by {
      assert |ToLower("Site")| == 4;
      assert ToLower("Site") == "site";
    }
    assert !Includes(ToLower(""), "hero");
  }

  /** `POST`: 400 without a name; otherwise saves one project under `id` and answers 201. */
  method Post(store: ProjectStore, body: Option<PostBody>, id: string, now: Time) returns (r: Response)
    modifies store
    ensures body.None? ==> r == InternalError && store.projects == old(store.projects)
    ensures body.Some? && !Truthy(body.value.name) ==>
              r == Response(400, Failure("Project name is required")) && store.projects == old(store.projects)
    ensures body.Some? && Truthy(body.value.name) ==>
              var saved := Project(id, body.value.name.value, OrElse(body.value.description, ""),
                                   body.value.components.GetOr([]), now, now);
              r == Response(201, OneProject(saved)) && store.projects == old(store.projects) + [saved]
  {
    if body.None? {
      return InternalError;
    }
    var b := body.value;
    if !Truthy(b.name) {
      return Response(400, Failure("Project name is required"));
    }
    var project := store.SaveProject(ProjectDraft(b.name.value, OrElse(b.description, ""), b.components.GetOr([])), id, now);
    r := Response(201, OneProject(project));
  }

  /** `PUT`: 400 without an id, 404 for an unknown id, otherwise 200 with the updated project. */
  method Put(store: ProjectStore, body: Option<PutBody>, now: Time) returns (r: Response)
    modifies store
    ensures body.None? ==> r == InternalError && store.projects == old(store.projects)
    ensures body.Some? && !Truthy(body.value.id) ==>
              r == Response(400, Failure("Project ID is required")) && store.projects == old(store.projects)
    ensures body.Some? && Truthy(body.value.id) && FindIndex(old(store.projects), body.value.id.value).None? ==>
              r == Response(404, Failure("Project not found")) && store.projects == old(store.projects)
    ensures body.Some? && Truthy(body.value.id) && FindIndex(old(store.projects), body.value.id.value).Some? ==>
              var i := FindIndex(old(store.projects), body.value.id.value).value;
              var updated := Merge(old(store.projects)[i], body.value.updates.GetOr(NoUpdates), now);
              r == Response(200, OneProject(updated)) && store.projects == old(store.projects)[i := updated]
  {
    if body.None? {
      return InternalError;
    }
    var b := body.value;
    if !Truthy(b.id) {
      return Response(400, Failure("Project ID is required"));
    }
    var project := store.UpdateProject(b.id.value, b.updates.GetOr(NoUpdates), now);
    if project.None? {
      return Response(404, Failure("Project not found"));
    }
    r := Response(200, OneProject(project.value));
  }

  /** `DELETE`: 400 without an id, 404 when no project has it, otherwise 200 after removing every such project. */
  method Delete(store: ProjectStore, id: Option<string>) returns (r: Response)
    modifies store
    ensures !Truthy(id) ==> r == Response(400, Failure("Project ID is required")) && store.projects == old(store.projects)
    ensures Truthy(id) && (forall p :: p in old(store.projects) ==> p.id != id.value) ==>
              r == Response(404, Failure("Project not found")) && store.projects == old(store.projects)
    ensures Truthy(id) && (exists p :: p in old(store.projects) && p.id == id.value) ==>
              r == Response(200, Deleted) && store.projects == WithoutId(old(store.projects), id.value)
  {
    if !Truthy(id) {
      return Response(400, Failure("Project ID is required"));
    }
    var success := store.DeleteProject(id.value);
    if !success {
      return Response(404, Failure("Project not found"));
    }
    r := Response(200, Deleted);
  }
}
