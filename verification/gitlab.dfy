/** The parts of the remote API client the core consumes. The client itself
    is a collaborator; only the shapes of its inputs and outputs appear here. */
module Gitlab {
  import opened Wrappers
  import opened Strconv

  /** `ListProjectMergeRequestsOptions` together with the project id it is sent for. */
  datatype ListOptions = ListOptions(projectId: string, scope: string, state: string, sourceBranch: string)

  /** A listed merge request; only its project-local IID matters here. */
  datatype MergeRequest = MergeRequest(iid: GoInt)

  /** The filter both lookups use: every open merge request of the branch. */
  function OpenOnBranch(projectId: string, branch: string): (o: ListOptions)
    ensures o.scope == "all" && o.state == "opened"
    ensures o.projectId == projectId && o.sourceBranch == branch
  {
    ListOptions(projectId, "all", "opened", branch)
  }

  /** The upstream "list merge requests" operation: a list or an error text. */
  type Lister = ListOptions -> Result<seq<MergeRequest>, string>
}
