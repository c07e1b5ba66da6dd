/** The project tabs: a list of saved circuits and the id of the active one. */
module ProjectStore {
  import opened Base
  import opened Circuit
  import opened Sequences

  /** A saved circuit; the two times are clock readings. */
  datatype Project = Project(
    id: string, name: string, components: seq<Component>, wires: seq<Wire>,
    simulationResult: Option<SimResult>, zoom: real, pan: Point,
    createdAt: int, updatedAt: int)

  /** The fields a data update may carry; `None` leaves a field as it is. */
  datatype ProjectUpdate = ProjectUpdate(
    name: Option<string>, components: Option<seq<Component>>, wires: Option<seq<Wire>>,
    simulationResult: Option<Option<SimResult>>, zoom: Option<real>, pan: Option<Point>)

  /** Decimal digits of a natural number, as template strings print it. */
  function NatString(n: nat): (r: string)
    ensures |r| > 0
    ensures forall i :: 0 <= i < |r| ==> '0' <= r[i] <= '9'
  {
    var d := ['0' + (n % 10) as char];
    if n < 10 then d else NatString(n / 10) + d
  }

  /** The default name of the next project when `count` exist. */
  function DefaultName(count: nat): string {
    "Untitled Circuit " + NatString(count + 1)
  }

  /** A fresh project with an empty circuit. The two times are separate
      clock readings, `created` taken first. */
  function EmptyProject(id: string, name: string, created: int, updated: int): Project {
    Project(id, name, [], [], None, 1.0, Point(0.0, 0.0), created, updated)
  }

  function Update(p: Project, u: ProjectUpdate, now: int): (r: Project)
    ensures r.id == p.id && r.createdAt == p.createdAt && r.updatedAt == now
  {
    Project(p.id,
      if u.name.Some? then u.name.value else p.name,
      if u.components.Some? then u.components.value else p.components,
      if u.wires.Some? then u.wires.value else p.wires,
      if u.simulationResult.Some? then u.simulationResult.value else p.simulationResult,
      if u.zoom.Some? then u.zoom.value else p.zoom,
      if u.pan.Some? then u.pan.value else p.pan,
      p.createdAt, now)
  }

  /** `projects.find(p => p.id === id)`. */
  function FindProject(ps: seq<Project>, id: string): (r: Option<Project>)
    ensures r.None? <==> forall p :: p in ps ==> p.id != id
    ensures r.Some? ==> r.value in ps && r.value.id == id
    ensures r.Some? ==> exists i :: (0 <= i < |ps| && ps[i] == r.value &&
      forall j :: 0 <= j < i ==> ps[j].id != id)
  {
    if ps == [] then None
    else if ps[0].id == id then Some(ps[0])
    else
      var r := FindProject(ps[1..], id);
      if r.Some? then
        var i :| 0 <= i < |ps[1..]| && ps[1..][i] == r.value && forall j :: 0 <= j < i ==> ps[1..][j].id != id;
        assert ps[i + 1] == r.value && forall j :: 0 <= j < i + 1 ==> ps[j].id != id;
        r
      else r
  }

  predicate OtherId(id: string, p: Project) {
    p.id != id
  }

  predicate Fresh(ps: seq<Project>, id: string) {
    forall p :: p in ps ==> p.id != id
  }

  ghost predicate DistinctIds(ps: seq<Project>) {
    forall i, j :: 0 <= i < j < |ps| ==> ps[i].id != ps[j].id
  }

  class Store {
    var projects: seq<Project>
    var activeProjectId: string

    /** The list is never empty and ids are unique; the active id need not
        name a project. */
    ghost predicate Valid()
      reads this
    {
      |projects| > 0 && DistinctIds(projects)
    }

    /** The one default project. */
    constructor (created: int, updated: int)
      ensures Valid()
      ensures projects == [EmptyProject("default", "Untitled Circuit 1", created, updated)]
      ensures activeProjectId == "default"
    {
      projects := [EmptyProject("default", "Untitled Circuit 1", created, updated)];
      activeProjectId := "default";
    }

    /** Appends an empty project and makes it active; an empty `name`
        stands for the default name. `newId` is the clock-derived id. */
    method CreateProject(name: string, newId: string, created: int, updated: int)
      requires Valid() && Fresh(projects, newId)
      modifies this
      ensures Valid()
      ensures projects == old(projects) + [EmptyProject(newId, if name == "" then DefaultName(|old(projects)|) else name, created, updated)]
      ensures activeProjectId == newId
    {
      var p := EmptyProject(newId, if name == "" then DefaultName(|projects|) else name, created, updated);
      projects := projects + [p];
      activeProjectId := newId;
    }

    /** Removes the project with that id unless it is the last one; a
        deleted active project hands over to the first remaining one. */
    method DeleteProject(id: string)
      requires Valid()
      modifies this
      ensures Valid()
      ensures |old(projects)| == 1 ==> projects == old(projects) && activeProjectId == old(activeProjectId)
      ensures |old(projects)| > 1 ==>
        projects == Filter(old(projects), p => OtherId(id, p)) &&
        activeProjectId == if old(activeProjectId) == id then projects[0].id else old(activeProjectId)
    {
      if |projects| == 1 {
        return;
      }
      var newProjects := Filter(projects, p => OtherId(id, p));
      RemoveOneKeepsSome(projects, id);
      var newActiveId := if activeProjectId == id then newProjects[0].id else activeProjectId;
      projects, activeProjectId := newProjects, newActiveId;
    }

    /** The id is not checked against the list. */
    method SetActiveProject(id: string)
      modifies this`activeProjectId
      ensures activeProjectId == id
    {
      activeProjectId := id;
    }

    method RenameProject(id: string, name: string, now: int)
      requires Valid()
      modifies this`projects
      ensures Valid()
      ensures |projects| == |old(projects)|
      ensures forall i :: 0 <= i < |projects| ==>
        projects[i] == if old(projects)[i].id == id
          then old(projects)[i].(name := name, updatedAt := now) else old(projects)[i]
    {
      var ps := projects;
      projects := seq(|ps|, i requires 0 <= i < |ps| =>
        if ps[i].id == id then ps[i].(name := name, updatedAt := now) else ps[i]);
      assert forall i :: 0 <= i < |ps| ==> projects[i].id == ps[i].id;
    }

    method UpdateProjectData(id: string, u: ProjectUpdate, now: int)
      requires Valid()
      modifies this`projects
      ensures Valid()
      ensures |projects| == |old(projects)|
      ensures forall i :: 0 <= i < |projects| ==>
        projects[i] == if old(projects)[i].id == id then Update(old(projects)[i], u, now) else old(projects)[i]
    {
      var ps := projects;
      projects := seq(|ps|, i requires 0 <= i < |ps| =>
        if ps[i].id == id then Update(ps[i], u, now) else ps[i]);
      assert forall i :: 0 <= i < |ps| ==> projects[i].id == ps[i].id;
    }

    /** The active project, when the active id names one. */
    function GetActiveProject(): (r: Option<Project>)
      reads this
      ensures r.Some? ==> r.value in projects && r.value.id == activeProjectId
      ensures r.None? <==> forall p :: p in projects ==> p.id != activeProjectId
      ensures r.Some? ==> exists i :: (0 <= i < |projects| && projects[i] == r.value &&
        forall j :: 0 <= j < i ==> projects[j].id != activeProjectId)
    {
      FindProject(projects, activeProjectId)
    }

    /** Appends a copy under `newId` named "<name> (Copy)" and makes it
        active; an unknown id changes nothing. */
    method DuplicateProject(id: string, newId: string, created: int, updated: int)
      requires Valid() && Fresh(projects, newId)
      modifies this
      ensures Valid()
      ensures FindProject(old(projects), id).None? ==>
        projects == old(projects) && activeProjectId == old(activeProjectId)
      ensures FindProject(old(projects), id).Some? ==>
        var p := FindProject(old(projects), id).value;
        projects == old(projects) + [p.(id := newId, name := p.name + " (Copy)", createdAt := created, updatedAt := updated)] &&
        activeProjectId == newId
    {
      var found := FindProject(projects, id);
      if found.None? {
        return;
      }
      var p := found.value;
      var copy := p.(id := newId, name := p.name + " (Copy)", createdAt := created, updatedAt := updated);
      projects := projects + [copy];
      activeProjectId := newId;
    }
  }

  /** With unique ids, removing one id from two or more projects leaves at
      least one, still with unique ids. */
  lemma RemoveOneKeepsSome(ps: seq<Project>, id: string)
    requires |ps| > 1 && DistinctIds(ps)
    ensures |Filter(ps, p => OtherId(id, p))| > 0
    ensures DistinctIds(Filter(ps, p => OtherId(id, p)))
  {
    var keep := p => OtherId(id, p);
    if ps[0].id == id {
      assert ps[1].id != id;
      assert ps[1] in Filter(ps, keep);
    } else {
      assert ps[0] in Filter(ps, keep);
    }
    FilterKeepsDistinctIds(ps, keep);
  }

  lemma {:induction false} FilterKeepsDistinctIds(ps: seq<Project>, keep: Project -> bool)
    requires DistinctIds(ps)
    ensures DistinctIds(Filter(ps, keep))
  {
    if ps != [] {
      var init := ps[..|ps| - 1];
      var last := ps[|ps| - 1];
      FilterKeepsDistinctIds(init, keep);
      var r := Filter(init, keep);
      if keep(last) {
        forall p | p in r
          ensures p.id != last.id
        {
          var i :| 0 <= i < |init| && init[i] == p;
          assert ps[i] == p;
        }
        var r' := r + [last];
        forall i, j | 0 <= i < j < |r'|
          ensures r'[i].id != r'[j].id
        {
          if j == |r| {
            assert r'[i] in r;
          }
        }
      }
    }
  }
}

/** Properties of the project store beyond single calls. */
module ProjectStoreProps {
  import opened Base
  import opened Sequences
  import opened ProjectStore

  /** Deleting removes exactly the projects with that id. */
  lemma DeleteRemovesOnlyThatId(ps: seq<Project>, id: string)
    ensures forall p :: p in Filter(ps, p => OtherId(id, p)) <==> p in ps && p.id != id
  {
  }

  /** Setting an active id that names no project leaves no active project. */
  method ActiveMayBeMissing(s: Store, id: string)
    requires Fresh(s.projects, id)
    modifies s
    ensures s.GetActiveProject().None?
  {
    s.SetActiveProject(id);
  }

  /** A created project becomes the active project. */
  method CreateThenActive(s: Store, name: string, newId: string, created: int, updated: int)
    requires s.Valid() && Fresh(s.projects, newId)
    modifies s
    ensures s.Valid()
    ensures s.GetActiveProject() == Some(s.projects[|s.projects| - 1])
    ensures s.projects[|s.projects| - 1].components == [] && s.projects[|s.projects| - 1].zoom == 1.0
  {
    s.CreateProject(name, newId, created, updated);
    ghost var ps := s.projects;
    assert FindProject(ps, newId) == Some(ps[|ps| - 1]) by {
      FindLast(ps, newId);
    }
  }

  /** With unique ids, the project found by id is the one at that id's place. */
  lemma {:induction false} FindLast(ps: seq<Project>, id: string)
    requires |ps| > 0 && ps[|ps| - 1].id == id
    requires forall i :: 0 <= i < |ps| - 1 ==> ps[i].id != id
    ensures FindProject(ps, id) == Some(ps[|ps| - 1])
  {
    if ps[0].id != id {
      FindLast(ps[1..], id);
    }
  }
}
