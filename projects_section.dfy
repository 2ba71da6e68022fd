/**
 * The data shaping of the projects section
 * (src/components/sections/ProjectsSection.tsx): the technology filter
 * buttons and the list of projects shown for the selected filter.
 */
module ProjectsSection {
  import opened Common
  import opened Seqs
  import opened UseProjects

  /** Every stack entry of every project: project by project, each stack in
      its own order. */
  function Stacks(projects: seq<Project>): (r: seq<string>)
    ensures forall t :: t in r <==> exists p :: p in projects && t in p.stack
  {
    if projects == [] then []
    else
      var init := projects[..|projects| - 1];
      var r := Stacks(init) + projects[|projects| - 1].stack;
      assert forall p :: p in projects <==> p in init || p == projects[|projects| - 1];
      r
  }

  /** The `allTechnologies` reduce: scans the projects and their stacks in
      order and pushes each technology that is not yet in the accumulator. */
  method AllTechnologies(projects: seq<Project>) returns (techs: seq<string>)
    ensures techs == Dedup(Stacks(projects))
    ensures NoDuplicates(techs)
    ensures forall t :: t in techs <==> t in Stacks(projects)
    ensures forall t :: t in techs <==> exists p :: p in projects && t in p.stack
    ensures forall i, j :: 0 <= i < j < |techs| ==>
              FirstIndex(Stacks(projects), techs[i]) < FirstIndex(Stacks(projects), techs[j])
  {
    techs := [];
    var i := 0;
    while i < |projects|
      invariant 0 <= i <= |projects|
      invariant techs == Dedup(Stacks(projects[..i]))
    {
      var stack := projects[i].stack;
      ghost var done := Stacks(projects[..i]);
      var j := 0;
      assert done + stack[..0] == done;
      while j < |stack|
        invariant 0 <= j <= |stack|
        invariant techs == Dedup(done + stack[..j])
      {
        ghost var flat := done + stack[..j];
        assert done + stack[..j + 1] == flat + [stack[j]];
        assert (flat + [stack[j]])[..|flat|] == flat;
        if stack[j] !in techs {
          techs := techs + [stack[j]];
        }
        j := j + 1;
      }
      assert projects[..i + 1][..i] == projects[..i];
      assert stack[..|stack|] == stack;
      i := i + 1;
    }
    assert projects[..|projects|] == projects;
    DedupSpec(Stacks(projects));
  }

  /** `filteredProjects`: an absent (or empty, hence falsy) filter shows every
      project; otherwise the projects whose stack includes the filter. */
  function FilteredProjects(projects: seq<Project>, filter: Option<string>): (r: seq<Project>)
    ensures filter.Some? && filter.value != "" ==>
      forall p :: p in r <==> p in projects && filter.value in p.stack
    ensures filter.Some? && filter.value != "" ==> |r| == Count(projects, (p: Project) => filter.value in p.stack)
    ensures filter.None? || filter.value == "" ==> r == projects
    ensures IsSubsequence(r, projects)
  {
    if filter.Some? && filter.value != "" then
      Filter(projects, (p: Project) => filter.value in p.stack)
    else
      SubsequenceReflexive(projects);
      projects
  }

  /** Every filter button offered selects at least one project. */
  lemma FilterButtonsNeverEmpty(projects: seq<Project>, tech: string)
    requires tech in Dedup(Stacks(projects))
    ensures FilteredProjects(projects, Some(tech)) != []
  {
    DedupSpec(Stacks(projects));
    var p :| p in projects && tech in p.stack;
    assert p in FilteredProjects(projects, Some(tech));
  }
}
