/**
 * The `useProjects` hook (src/hooks/useProjects.ts): the project list
 * fetched once on mount, the featured projects among them, and the
 * loading and error flags.
 */
module UseProjects {
  import opened Common
  import opened Seqs

  /** One entry of `projects.json`. */
  datatype Project = Project(
    id: string,
    name: string,
    description: string,
    stack: seq<string>,
    role: string,
    outcome: string,
    demoUrl: string,
    repoUrl: string,
    imageUrl: string,
    featured: bool)

  /** How the fetch of `/data/projects.json` ended. */
  datatype FetchOutcome =
    | Loaded(projects: seq<Project>)   // 2xx response with a parsed body
    | NotOk                            // a response whose `ok` is false
    | Threw(message: Option<string>)   // any exception; None when it was not an Error

  const NotOkMessage := "Failed to fetch projects data"
  const UnknownErrorMessage := "An unknown error occurred"

  /** `data.projects.filter(project => project.featured)`. */
  function FeaturedProjects(projects: seq<Project>): (r: seq<Project>)
    ensures forall p :: p in r <==> p in projects && p.featured
    ensures IsSubsequence(r, projects)
    ensures |r| == Count(projects, (p: Project) => p.featured)
  {
    Filter(projects, (p: Project) => p.featured)
  }

  /** The message of the Error the hook stores for a failed fetch. */
  function ErrorMessage(outcome: FetchOutcome): (m: string)
    requires !outcome.Loaded?
    ensures outcome.NotOk? ==> m == NotOkMessage
    ensures outcome.Threw? && outcome.message.None? ==> m == UnknownErrorMessage
    ensures outcome.Threw? && outcome.message.Some? ==> m == outcome.message.value
  {
    match outcome
    case NotOk => NotOkMessage
    case Threw(message) => if message.Some? then message.value else UnknownErrorMessage
  }

  class ProjectsStore {
    var projects: seq<Project>
    var featuredProjects: seq<Project>
    var loading: bool
    var error: Option<string>

    /** The state of the hook on first render, before the fetch settles. */
    constructor ()
      ensures loading && projects == [] && featuredProjects == [] && error == None
    {
      projects := [];
      featuredProjects := [];
      loading := true;
      error := None;
    }

    /** What the hook keeps between renders: the featured list is derived
        from the project list. */
    ghost predicate Valid()
      reads this
    {
      featuredProjects == FeaturedProjects(projects)
    }

    /** The continuation of `fetchProjects` once the request has settled. */
    method Settle(outcome: FetchOutcome)
      requires Valid()
      modifies this
      ensures Valid()
      ensures !loading
      ensures outcome.Loaded? ==> projects == outcome.projects && error == old(error)
      ensures !outcome.Loaded? ==>
        projects == old(projects) && error == Some(ErrorMessage(outcome))
    {
      loading := true;
      match outcome {
        case Loaded(data) =>
          projects := data;
          featuredProjects := FeaturedProjects(data);
          loading := false;
        case _ =>
          error := Some(ErrorMessage(outcome));
          loading := false;
      }
    }
  }

  /** The fetch runs once, on mount: after it settles the lists are the
      fetched ones on success and still empty on failure. */
  method Mount(outcome: FetchOutcome) returns (store: ProjectsStore)
    ensures !store.loading
    ensures outcome.Loaded? ==> store.projects == outcome.projects && store.error == None
    ensures outcome.Loaded? ==> store.featuredProjects == FeaturedProjects(outcome.projects)
    ensures outcome.NotOk? ==> store.error == Some(NotOkMessage)
    ensures !outcome.Loaded? ==> store.error == Some(ErrorMessage(outcome))
    ensures !outcome.Loaded? ==> store.projects == [] && store.featuredProjects == []
  {
    store := new ProjectsStore();
    store.Settle(outcome);
  }
}
