/** The `project` commands (internal/cli/commands/project.go) over the project table: `init`
  * refuses an existing name and otherwise adds the new project as the only active one, `use`
  * makes the named project the only active one, and `delete` removes a project once the user
  * confirms. Rows removed by a soft delete are left out of the table, as every query of the
  * commands skips them. */
module ProjectCommands {
  import opened Wrappers

  datatype Project = Project(id: string, name: string, description: string, isActive: bool)

  /** No two rows are active. */
  predicate AtMostOneActive(ps: seq<Project>) {
    forall i, j :: 0 <= i < |ps| && 0 <= j < |ps| && ps[i].isActive && ps[j].isActive ==> i == j
  }

  /** Row `k` is active and no other row is. */
  predicate OnlyActive(ps: seq<Project>, k: int) {
    forall i :: 0 <= i < |ps| ==> (ps[i].isActive <==> i == k)
  }

  /** No two rows share a name. */
  predicate UniqueNames(ps: seq<Project>) {
    forall i, j :: 0 <= i < j < |ps| ==> ps[i].name != ps[j].name
  }

  predicate HasName(ps: seq<Project>, name: string) {
    exists p :: p in ps && p.name == name
  }

  /** The bulk update `is_active = false` on the active rows: no row stays active and nothing
    * else about any row changes. */
  function Deactivated(ps: seq<Project>): (r: seq<Project>)
    ensures |r| == |ps|
    ensures forall i :: 0 <= i < |r| ==> !r[i].isActive
    ensures forall i :: 0 <= i < |r| ==> r[i].id == ps[i].id && r[i].name == ps[i].name && r[i].description == ps[i].description
  {
    if ps == [] then [] else [ps[0].(isActive := false)] + Deactivated(ps[1..])
  }

  /** `First` on `name = ?`: the position of the first row with the name, if any. */
  function FirstNamed(ps: seq<Project>, name: string): (r: Option<nat>)
    ensures r.Some? ==> r.value < |ps| && ps[r.value].name == name
    ensures r.Some? ==> forall i :: 0 <= i < r.value ==> ps[i].name != name
    ensures r.None? <==> !HasName(ps, name)
  {
    if ps == [] then None
    else if ps[0].name == name then Some(0)
    else
      var rest := FirstNamed(ps[1..], name);
      assert forall p :: p in ps <==> p == ps[0] || p in ps[1..];
      if rest.Some? then Some(rest.value + 1) else None
  }

  function NewProject(name: string, newId: string): Project {
    Project(newId, name, "Project: " + name, true)
  }

  /** `project init`: an existing name changes nothing; otherwise every project is deactivated
    * and the new project is added as the only active one. */
  function Initialized(ps: seq<Project>, name: string, newId: string): (r: seq<Project>)
    ensures HasName(ps, name) ==> r == ps
    ensures !HasName(ps, name) ==>
      && |r| == |ps| + 1
      && r[|ps|] == NewProject(name, newId)
      && OnlyActive(r, |ps|)
      && forall i :: 0 <= i < |ps| ==> r[i].id == ps[i].id && r[i].name == ps[i].name && r[i].description == ps[i].description
  {
    if HasName(ps, name) then ps else Deactivated(ps) + [NewProject(name, newId)]
  }

  /** activateProject: an unknown name changes nothing; otherwise the first project with the
    * name becomes the only active one and no other field of any row changes. */
  function Activated(ps: seq<Project>, name: string): (r: seq<Project>)
    ensures !HasName(ps, name) ==> r == ps
    ensures HasName(ps, name) ==>
      && |r| == |ps|
      && OnlyActive(r, FirstNamed(ps, name).value)
      && forall i :: 0 <= i < |ps| ==> r[i].id == ps[i].id && r[i].name == ps[i].name && r[i].description == ps[i].description
  {
    match FirstNamed(ps, name)
    case None => ps
    case Some(k) => Deactivated(ps)[k := ps[k].(isActive := true)]
  }

  /** `project delete`: the first project with the name is removed when the user confirmed;
    * an unknown name or a declined confirmation changes nothing. */
  function Deleted(ps: seq<Project>, name: string, confirmed: bool): (r: seq<Project>)
    ensures !HasName(ps, name) || !confirmed ==> r == ps
    ensures HasName(ps, name) && confirmed ==>
      var k := FirstNamed(ps, name).value;
      |r| == |ps| - 1 && multiset(r) + multiset{ps[k]} == multiset(ps)
  {
    match FirstNamed(ps, name)
    case None => ps
    case Some(k) =>
      if confirmed then
        assert ps == ps[..k] + [ps[k]] + ps[k + 1..];
        ps[..k] + ps[k + 1..]
      else ps
  }

  /** A row that is the only active one, or none, makes at most one active row. */
  lemma OnlyActiveIsAtMostOne(ps: seq<Project>, k: int)
    requires OnlyActive(ps, k)
    ensures AtMostOneActive(ps)
  {
  }

  /** Removing row `k` keeps the other rows in order. */
  lemma RemovedRows(ps: seq<Project>, k: nat)
    requires k < |ps|
    ensures var r := ps[..k] + ps[k + 1..];
      |r| == |ps| - 1 && forall i :: 0 <= i < |r| ==> r[i] == ps[if i < k then i else i + 1]
  {
  }

  /** Deleting a row keeps "at most one active project". */
  lemma {:induction false} DeleteKeepsOneActive(ps: seq<Project>, name: string, confirmed: bool)
    requires AtMostOneActive(ps)
    ensures AtMostOneActive(Deleted(ps, name, confirmed))
  {
    if HasName(ps, name) && confirmed {
      var k := FirstNamed(ps, name).value;
      RemovedRows(ps, k);
    }
  }

  /** Every command keeps "at most one active project". */
  lemma CommandsKeepOneActive(ps: seq<Project>, name: string, newId: string, confirmed: bool)
    requires AtMostOneActive(ps)
    ensures AtMostOneActive(Initialized(ps, name, newId))
    ensures AtMostOneActive(Activated(ps, name))
    ensures AtMostOneActive(Deleted(ps, name, confirmed))
  {
    if !HasName(ps, name) {
      OnlyActiveIsAtMostOne(Initialized(ps, name, newId), |ps|);
    } else {
      OnlyActiveIsAtMostOne(Activated(ps, name), FirstNamed(ps, name).value);
    }
    DeleteKeepsOneActive(ps, name, confirmed);
  }

  /** Deleting the active project leaves no project active. */
  lemma DeleteActiveLeavesNone(ps: seq<Project>, name: string)
    requires AtMostOneActive(ps) && HasName(ps, name)
    requires ps[FirstNamed(ps, name).value].isActive
    ensures forall p :: p in Deleted(ps, name, true) ==> !p.isActive
  {
    var k := FirstNamed(ps, name).value;
    var r := Deleted(ps, name, true);
    RemovedRows(ps, k);
    forall p | p in r
      ensures !p.isActive
    {
      var i :| 0 <= i < |r| && r[i] == p;
    }
  }

  /** `init` refuses duplicates, so it keeps names unique. */
  lemma InitKeepsNamesUnique(ps: seq<Project>, name: string, newId: string)
    requires UniqueNames(ps)
    ensures UniqueNames(Initialized(ps, name, newId))
  {
    if !HasName(ps, name) {
      var r := Initialized(ps, name, newId);
      forall i, j | 0 <= i < j < |r|
        ensures r[i].name != r[j].name
      {
        if j == |ps| {
          assert ps[i] in ps;
        }
      }
    }
  }

  /** The project table the commands read and write. */
  class ProjectStore {
    var projects: seq<Project>

    constructor(rows: seq<Project>)
      ensures projects == rows
    {
      projects := rows;
    }

    /** newProjectInitCmd; `newId` is the ID the database assigns to the new row. */
    method Init(name: string, newId: string) returns (created: bool)
      modifies this
      ensures created <==> !HasName(old(projects), name)
      ensures projects == Initialized(old(projects), name, newId)
    {
      created := FirstNamed(projects, name).None?;
      if created {
        projects := Deactivated(projects) + [NewProject(name, newId)];
      }
    }

    /** activateProject */
    method Activate(name: string) returns (found: bool)
      modifies this
      ensures found <==> HasName(old(projects), name)
      ensures projects == Activated(old(projects), name)
    {
      var first := FirstNamed(projects, name);
      found := first.Some?;
      if found {
        var project := projects[first.value];
        projects := Deactivated(projects);
        projects := projects[first.value := project.(isActive := true)];
      }
    }

    /** newProjectDeleteCmd; `confirmed` is the answer to the confirmation prompt, false when
      * the prompt fails. */
    method Delete(name: string, confirmed: bool) returns (deleted: bool)
      modifies this
      ensures deleted <==> HasName(old(projects), name) && confirmed
      ensures projects == Deleted(old(projects), name, confirmed)
    {
      var first := FirstNamed(projects, name);
      deleted := first.Some? && confirmed;
      if deleted {
        var k := first.value;
        projects := projects[..k] + projects[k + 1..];
      }
    }
  }
}
