/** `withMr`: the middleware that resolves the current merge request lazily
    before a merge-request-scoped service runs. */
module WithMr {
  import opened Wrappers
  import opened Envelope
  import opened Gitlab
  import opened Project

  /** Whether the wrapped handler runs, or the middleware answered itself. */
  datatype Next = Proceed | Halt(response: Written<()>)

  /** The session after the request, the lookups it made, and what happened next. */
  datatype Step = Step(project: ProjectInfo, lookups: seq<ListOptions>, next: Next)

  function ListFailed(err: string): Written<()> {
    HandleError("Failed to list merge requests: " + err, "Failed to list merge requests", StatusInternalServerError)
  }

  function NoneOnBranch(branch: string): Written<()> {
    HandleError("No merge requests found for branch '" + branch + "'", "No merge requests found", StatusBadRequest)
  }

  /** A resolved session passes straight through. An unresolved one asks the
      lister for the branch's open merge requests: an error is a 500, an empty
      list a 400, and otherwise the first IID is stored and the handler runs. */
  function Resolve(p: ProjectInfo, g: GitProjectInfo, list: Lister): (s: Step)
    ensures s.project.projectId == p.projectId
    ensures p.mergeId != 0 ==> s == Step(p, [], Proceed)
    ensures p.mergeId == 0 ==> s.lookups == [OpenOnBranch(p.projectId, g.branchName)]
    ensures s.next.Proceed? <==>
      p.mergeId != 0 || (list(OpenOnBranch(p.projectId, g.branchName)).Ok? && |list(OpenOnBranch(p.projectId, g.branchName)).value| > 0)
    ensures s.next.Halt? ==> s.project == p && Consistent(s.next.response)
    ensures p.mergeId == 0 && list(OpenOnBranch(p.projectId, g.branchName)).Err? ==>
      s.next.Halt? && s.next.response.body == Failure(StatusInternalServerError, "Failed to list merge requests",
        "Failed to list merge requests: " + list(OpenOnBranch(p.projectId, g.branchName)).error)
    ensures p.mergeId == 0 && list(OpenOnBranch(p.projectId, g.branchName)) == Ok([]) ==>
      s.next.Halt? && s.next.response.body == Failure(StatusBadRequest, "No merge requests found",
        "No merge requests found for branch '" + g.branchName + "'")
    ensures p.mergeId == 0 && s.next.Proceed? ==>
      s.project.mergeId == list(OpenOnBranch(p.projectId, g.branchName)).value[0].iid
  {
    if p.mergeId != 0 then Step(p, [], Proceed)
    else
      var options := OpenOnBranch(p.projectId, g.branchName);
      match list(options)
      case Err(e) => Step(p, [options], Halt(ListFailed(e)))
      case Ok(mrs) =>
        if |mrs| == 0 then Step(p, [options], Halt(NoneOnBranch(g.branchName)))
        else Step(p.(mergeId := mrs[0].iid), [options], Proceed)
  }
}
