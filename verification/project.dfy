/** The per-process records the router's option functions fill in and the
    merge-request resolver updates. */
module Project {

  /** `ProjectInfo`: the project id and the resolved merge request IID (0 while unresolved). */
  datatype ProjectInfo = ProjectInfo(projectId: string, mergeId: int)

  /** Which implementation of "latest commit on the remote" the git record carries. */
  datatype CommitLookup = NoCommitLookup | RemoteCommitLookup

  /** `git.GitProjectInfo`, reduced to the fields the core reads or writes. */
  datatype GitProjectInfo = GitProjectInfo(branchName: string, latestCommitOnRemote: CommitLookup)

  /** The emoji table is opaque here: names to descriptions. */
  type EmojiMap = map<string, string>

  /** The router's `data` record handed to every service. */
  datatype Data = Data(projectInfo: ProjectInfo, gitInfo: GitProjectInfo, emojiMap: EmojiMap)
}
