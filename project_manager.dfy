/**
 * utils/project-manager.ts: the project store. Every operation reads the whole stored list,
 * changes it and writes it back; here the stored list is the field `projects` of a
 * `ProjectStore`. Ids and timestamps, which the source draws from the clock and a random
 * source, are parameters.
 */
module ProjectManager {
  import opened Wrappers
  import opened JsStrings
  import opened Seqs

  /** A point in time, as `Date.now()` would give it. */
  type Time = int

  datatype Component = Component(id: string, name: string, code: string, kind: string, framework: string)

  datatype Project = Project(
    id: string,
    name: string,
    description: string,
    components: seq<Component>,
    createdAt: Time,
    updatedAt: Time)

  /** What `saveProject` is given: a project without id and timestamps. */
  datatype ProjectDraft = ProjectDraft(name: string, description: string, components: seq<Component>)

  /** What `addComponentToProject` is given: a component without id. */
  datatype ComponentDraft = ComponentDraft(name: string, code: string, kind: string, framework: string)

  /** `Partial<Project>`: a field that is `None` is absent and keeps its old value. */
  datatype ProjectUpdates = ProjectUpdates(
    id: Option<string>,
    name: Option<string>,
    description: Option<string>,
    components: Option<seq<Component>>,
    createdAt: Option<Time>,
    updatedAt: Option<Time>)

  /** `Partial<Component>`. */
  datatype ComponentUpdates = ComponentUpdates(
    id: Option<string>,
    name: Option<string>,
    code: Option<string>,
    kind: Option<string>,
    framework: Option<string>)

  const NoUpdates: ProjectUpdates := ProjectUpdates(None, None, None, None, None, None)

  /** `{ ...p, ...u, updatedAt: now }`: the fields `u` carries win, and the timestamp is always refreshed. */
  function Merge(p: Project, u: ProjectUpdates, now: Time): (r: Project)
    ensures r.updatedAt == now
    ensures u.id.None? && u.name.None? && u.description.None? && u.components.None? && u.createdAt.None?
            ==> r == p.(updatedAt := now)
    ensures u.id.Some? ==> r.id == u.id.value
    ensures u.id.None? ==> r.id == p.id
  {
    Project(
      u.id.GetOr(p.id),
      u.name.GetOr(p.name),
      u.description.GetOr(p.description),
      u.components.GetOr(p.components),
      u.createdAt.GetOr(p.createdAt),
      now)
  }

  /** An empty update only refreshes the timestamp; applying the same update twice is applying it once. */
  lemma MergeProperties(p: Project, u: ProjectUpdates, now: Time)
    ensures Merge(p, NoUpdates, now) == p.(updatedAt := now)
    ensures Merge(Merge(p, u, now), u, now) == Merge(p, u, now)
    ensures u.updatedAt.Some? ==> Merge(p, u, now).updatedAt == now
  {
  }

  /** `{ ...c, ...u }`. */
  function MergeComponent(c: Component, u: ComponentUpdates): Component {
    Component(u.id.GetOr(c.id), u.name.GetOr(c.name), u.code.GetOr(c.code), u.kind.GetOr(c.kind), u.framework.GetOr(c.framework))
  }

  /** `findIndex(p => p.id === id)`, from position `from` on. */
  function FindIndex(ps: seq<Project>, id: string, from: nat := 0): (r: Option<nat>)
    requires from <= |ps|
    ensures r.Some? ==> from <= r.value < |ps| && ps[r.value].id == id
    ensures r.Some? ==> forall j :: from <= j < r.value ==> ps[j].id != id
    ensures r.None? <==> forall j :: from <= j < |ps| ==> ps[j].id != id
    decreases |ps| - from
  {
    if from == |ps| then None
    else if ps[from].id == id then Some(from)
    else FindIndex(ps, id, from + 1)
  }

  /** A position holding the id with no earlier one holding it is the one `findIndex` returns. */
  lemma {:induction false} FindIndexFirst(ps: seq<Project>, id: string, from: nat, i: nat)
    requires from <= i < |ps| && ps[i].id == id
    requires forall j :: from <= j < i ==> ps[j].id != id
    ensures FindIndex(ps, id, from) == Some(i)
    decreases i - from
  {
    if from < i {
      FindIndexFirst(ps, id, from + 1, i);
    }
  }

  /** The projects whose id is not `id`, in order. */
  function WithoutId(ps: seq<Project>, id: string): seq<Project> {
    Filter((p: Project) => p.id != id, ps)
  }

  /** The components whose id is not `id`, in order. */
  function WithoutComponent(cs: seq<Component>, id: string): seq<Component> {
    Filter((c: Component) => c.id != id, cs)
  }

  /** `components.map(c => c.id === id ? { ...c, ...u } : c)`. */
  function UpdateMatching(cs: seq<Component>, id: string, u: ComponentUpdates): (r: seq<Component>)
    ensures |r| == |cs|
    ensures forall k :: 0 <= k < |cs| && cs[k].id != id ==> r[k] == cs[k]
    ensures forall k :: 0 <= k < |cs| && cs[k].id == id ==> r[k] == MergeComponent(cs[k], u)
  {
    seq(|cs|, k requires 0 <= k < |cs| => if cs[k].id == id then MergeComponent(cs[k], u) else cs[k])
  }

  /** The test `searchProjects` applies, with `q` already lower-cased. */
  predicate Matches(p: Project, q: string) {
    || Includes(ToLower(p.name), q)
    || Includes(ToLower(p.description), q)
    || exists k :: 0 <= k < |p.components| && Includes(ToLower(p.components[k].name), q)
  }

  /** `searchProjects` over a given list. */
  function Search(ps: seq<Project>, query: string): (r: seq<Project>)
    ensures forall p :: p in r <==> p in ps && Matches(p, ToLower(query))
    ensures |r| <= |ps|
  {
    var q := ToLower(query);
    Filter((p: Project) => Matches(p, q), ps)
  }

  /** The empty query matches every project, so searching for it returns the whole list. */
  lemma SearchEmptyQuery(ps: seq<Project>)
    ensures Search(ps, "") == ps
  {
    forall i | 0 <= i < |ps| ensures Matches(ps[i], ToLower("")) {
      assert OccursAt(ToLower(ps[i].name), "", 0);
    }
    FilterAll((p: Project) => Matches(p, ToLower("")), ps);
  }

  /** The query's case does not matter. */
  lemma SearchIgnoresQueryCase(ps: seq<Project>, query: string)
    ensures Search(ps, ToLower(query)) == Search(ps, query)
  {
    ToLowerIdempotent(query);
  }

  /** Searching the list split in two is searching each half: results keep the stored order. */
  lemma SearchKeepsOrder(a: seq<Project>, b: seq<Project>, query: string)
    ensures Search(a + b, query) == Search(a, query) + Search(b, query)
  {
    var q := ToLower(query);
    FilterAppend((p: Project) => Matches(p, q), a, b);
  }

  /** After a project is appended under an id no earlier project has, looking that id up finds it. */
  lemma SavedIsFound(ps: seq<Project>, p: Project)
    requires forall j :: 0 <= j < |ps| ==> ps[j].id != p.id
    ensures FindIndex(ps + [p], p.id) == Some(|ps|)
  {
    var qs := ps + [p];
    forall j | 0 <= j < |ps|
      ensures qs[j].id != p.id
    {
      assert qs[j] == ps[j];
    }
    FindIndexFirst(qs, p.id, 0, |ps|);
  }

  /** Deleting removes every project with the id and keeps the others in order; a second delete finds nothing. */
  lemma DeleteProperties(ps: seq<Project>, id: string)
    ensures forall p :: p in WithoutId(ps, id) <==> p in ps && p.id != id
    ensures FindIndex(WithoutId(ps, id), id).None?
    ensures WithoutId(WithoutId(ps, id), id) == WithoutId(ps, id)
    ensures (forall j :: 0 <= j < |ps| ==> ps[j].id != id) ==> WithoutId(ps, id) == ps
  {
    var r := WithoutId(ps, id);
    forall j | 0 <= j < |r| ensures r[j].id != id {
      assert r[j] in r;
    }
    FilterIdempotent((p: Project) => p.id != id, ps);
    if forall j :: 0 <= j < |ps| ==> ps[j].id != id {
      FilterAll((p: Project) => p.id != id, ps);
    }
  }

  class ProjectStore {
    /** The stored project list, in insertion order. */
    var projects: seq<Project>

    /** An empty store. */
    constructor()
      ensures projects == []
    {
      projects := [];
    }

    /** `getProject`: the first project with the id, if any. */
    function GetProject(id: string): (r: Option<Project>)
      reads this
      ensures r.None? <==> forall p :: p in projects ==> p.id != id
      ensures r.Some? ==> r.value.id == id
                          && exists i :: 0 <= i < |projects| && projects[i] == r.value
                                         && forall j :: 0 <= j < i ==> projects[j].id != id
    {
      match FindIndex(projects, id)
      case Some(i) => Some(projects[i])
      case None => None
    }

    /** `searchProjects`: the projects matching the query, in stored order. */
    function SearchProjects(query: string): (r: seq<Project>)
      reads this
      ensures forall p :: p in r <==> p in projects && Matches(p, ToLower(query))
      ensures query == "" ==> r == projects
    {
      SearchEmptyQuery(projects);
      Search(projects, query)
    }

    /** `saveProject`: appends a new project with the given id, created and updated at `now`. */
    method SaveProject(draft: ProjectDraft, id: string, now: Time) returns (saved: Project)
      modifies this
      ensures saved == Project(id, draft.name, draft.description, draft.components, now, now)
      ensures projects == old(projects) + [saved]
    {
      saved := Project(id, draft.name, draft.description, draft.components, now, now);
      projects := projects + [saved];
    }

    /**
     * `updateProject`: merges `updates` into the first project with the id and refreshes its
     * timestamp; every other project stays as it was. An unknown id changes nothing.
     */
    method UpdateProject(id: string, updates: ProjectUpdates, now: Time) returns (r: Option<Project>)
      modifies this
      ensures FindIndex(old(projects), id).None? ==> r.None? && projects == old(projects)
      ensures FindIndex(old(projects), id).Some? ==>
                var i := FindIndex(old(projects), id).value;
                && r == Some(Merge(old(projects)[i], updates, now))
                && |projects| == |old(projects)|
                && projects[i] == r.value
                && forall j :: 0 <= j < |projects| && j != i ==> projects[j] == old(projects)[j]
    {
      var index := FindIndex(projects, id);
      if index.None? {
        return None;
      }
      var i := index.value;
      projects := projects[i := Merge(projects[i], updates, now)];
      r := Some(projects[i]);
    }

    /** `deleteProject`: removes every project with the id; false, and no change, when there is none. */
    method DeleteProject(id: string) returns (deleted: bool)
      modifies this
      ensures deleted <==> exists p :: p in old(projects) && p.id == id
      ensures !deleted ==> projects == old(projects)
      ensures deleted ==> projects == WithoutId(old(projects), id)
      ensures forall p :: p in projects ==> p.id != id
    {
      var filtered := WithoutId(projects, id);
      if |filtered| == |projects| {
        assert forall p :: p in projects ==> p.id != id by {
          forall p | p in projects ensures p.id != id {
            var j :| 0 <= j < |projects| && projects[j] == p;
          }
        }
        return false;
      }
      projects := filtered;
      deleted := true;
    }

    /** `addComponentToProject`: appends the component, under the given id, to the first project with `projectId`. */
    method AddComponentToProject(projectId: string, draft: ComponentDraft, componentId: string, now: Time)
      returns (r: Option<Project>)
      modifies this
      ensures FindIndex(old(projects), projectId).None? ==> r.None? && projects == old(projects)
      ensures FindIndex(old(projects), projectId).Some? ==>
                var i := FindIndex(old(projects), projectId).value;
                var c := Component(componentId, draft.name, draft.code, draft.kind, draft.framework);
                && r == Some(old(projects)[i].(components := old(projects)[i].components + [c], updatedAt := now))
                && projects == old(projects)[i := r.value]
    {
      var project := GetProject(projectId);
      if project.None? {
        return None;
      }
      var c := Component(componentId, draft.name, draft.code, draft.kind, draft.framework);
      var updates := NoUpdates.(components := Some(project.value.components + [c]));
      r := UpdateProject(projectId, updates, now);
    }

    /** `removeComponentFromProject`: drops every component with the id from the first project with `projectId`. */
    method RemoveComponentFromProject(projectId: string, componentId: string, now: Time) returns (r: Option<Project>)
      modifies this
      ensures FindIndex(old(projects), projectId).None? ==> r.None? && projects == old(projects)
      ensures FindIndex(old(projects), projectId).Some? ==>
                var i := FindIndex(old(projects), projectId).value;
                var p := old(projects)[i];
                && r == Some(p.(components := WithoutComponent(p.components, componentId), updatedAt := now))
                && projects == old(projects)[i := r.value]
    {
      var project := GetProject(projectId);
      if project.None? {
        return None;
      }
      var filtered := WithoutComponent(project.value.components, componentId);
      r := UpdateProject(projectId, NoUpdates.(components := Some(filtered)), now);
    }

    /** `updateComponent`: merges `updates` into every component with the id in the first project with `projectId`. */
    method UpdateComponent(projectId: string, componentId: string, updates: ComponentUpdates, now: Time)
      returns (r: Option<Project>)
      modifies this
      ensures FindIndex(old(projects), projectId).None? ==> r.None? && projects == old(projects)
      ensures FindIndex(old(projects), projectId).Some? ==>
                var i := FindIndex(old(projects), projectId).value;
                var p := old(projects)[i];
                && r == Some(p.(components := UpdateMatching(p.components, componentId, updates), updatedAt := now))
                && projects == old(projects)[i := r.value]
    {
      var project := GetProject(projectId);
      if project.None? {
        return None;
      }
      var updated := UpdateMatching(project.value.components, componentId, updates);
      r := UpdateProject(projectId, NoUpdates.(components := Some(updated)), now);
    }

    /**
     * `cloneProject`: saves a copy of the first project with `projectId`, named with " (Copy)"
     * appended, under `newId`; the k-th component keeps everything but its id, which becomes
     * `componentIds(k)`.
     */
    method CloneProject(projectId: string, newId: string, componentIds: nat -> string, now: Time)
      returns (r: Option<Project>)
      modifies this
      ensures FindIndex(old(projects), projectId).None? ==> r.None? && projects == old(projects)
      ensures FindIndex(old(projects), projectId).Some? ==>
                var source := old(projects)[FindIndex(old(projects), projectId).value];
                && r.Some?
                && r.value.id == newId
                && r.value.name == source.name + " (Copy)"
                && r.value.description == source.description
                && |r.value.components| == |source.components|
                && (forall k :: 0 <= k < |source.components| ==>
                      r.value.components[k] == source.components[k].(id := componentIds(k)))
                && r.value.createdAt == now && r.value.updatedAt == now
                && projects == old(projects) + [r.value]
    {
      var project := GetProject(projectId);
      if project.None? {
        return None;
      }
      var cs := project.value.components;
      var copies := seq(|cs|, k requires 0 <= k < |cs| => cs[k].(id := componentIds(k)));
      var saved := SaveProject(ProjectDraft(project.value.name + " (Copy)", project.value.description, copies), newId, now);
      r := Some(saved);
    }
  }
}
