/** `CreateRouter`: option functions applied to a fresh `data` record, the
    static route table, and requests dispatched through it against the one
    shared session. */
module Router {
  import opened Wrappers
  import opened Envelope
  import opened Gitlab
  import opened Project
  import opened WithMr

  /** An option function: it may rewrite the record or fail. */
  type OptFunc = Data -> Result<Data, string>

  /** The record every router starts from: empty project and git information. */
  const Fresh := Data(ProjectInfo("", 0), GitProjectInfo("", NoCommitLookup), map[])

  /** Options run in list order, each on the record the previous ones left;
      the first error stops the run. */
  function ApplyOptions(d: Data, opts: seq<OptFunc>): (r: Result<Data, string>)
    ensures opts == [] ==> r == Ok(d)
    ensures r.Err? ==> |opts| > 0
    decreases |opts|
  {
    if opts == [] then Ok(d)
    else
      match opts[0](d)
      case Err(e) => Err(e)
      case Ok(d') => ApplyOptions(d', opts[1..])
  }

  /** Running a list of options is running its prefix, then its suffix on
      the prefix's result, unless the prefix already failed. */
  lemma {:induction false} ApplySplit(d: Data, a: seq<OptFunc>, b: seq<OptFunc>)
    ensures ApplyOptions(d, a + b) ==
      match ApplyOptions(d, a)
      case Err(e) => Err(e)
      case Ok(d') => ApplyOptions(d', b)
    decreases |a|
  {
    if a == [] {
      assert a + b == b;
    } else {
      assert (a + b)[1..] == a[1..] + b;
      match a[0](d)
      case Err(_) =>
      case Ok(d') => ApplySplit(d', a[1..], b);
    }
  }

  /** When the options before position k succeed and option k fails, the
      whole run fails with option k's error: later options never run. */
  lemma FirstErrorAborts(d: Data, opts: seq<OptFunc>, k: nat, before: Data, e: string)
    requires k < |opts|
    requires ApplyOptions(d, opts[..k]) == Ok(before)
    requires opts[k](before) == Err(e)
    ensures ApplyOptions(d, opts) == Err(e)
  {
    assert opts == opts[..k] + opts[k..];
    ApplySplit(d, opts[..k], opts[k..]);
  }

  /** Conversely, a failed run names the option that failed: every option
      before it succeeded, and its error on their result is the run's error. */
  lemma {:induction false} FailingOption(d: Data, opts: seq<OptFunc>)
    requires ApplyOptions(d, opts).Err?
    ensures exists k ::
      && 0 <= k < |opts|
      && ApplyOptions(d, opts[..k]).Ok?
      && opts[k](ApplyOptions(d, opts[..k]).value) == ApplyOptions(d, opts)
    decreases |opts|
  {
    assert opts[..0] == [];
    match opts[0](d)
    case Err(_) =>
    case Ok(d') =>
      FailingOption(d', opts[1..]);
      var k :| 0 <= k < |opts[1..]| && ApplyOptions(d', opts[1..][..k]).Ok?
        && opts[1..][k](ApplyOptions(d', opts[1..][..k]).value) == ApplyOptions(d', opts[1..]);
      var pre := opts[..k + 1];
      assert pre[0] == opts[0] && pre[1..] == opts[1..][..k];
      assert ApplyOptions(d, pre) == ApplyOptions(d', opts[1..][..k]);
      assert opts[k + 1] == opts[1..][k];
  }

  /** The services the table can dispatch to. */
  datatype Service =
    | EmojiService | DraftNoteService | DraftNotePublisherService
    | PipelineService | MeService | AttachmentService | MergeRequestCreatorService
    | TraceFileService | ProjectListerService | MergeRequestListerService
    | ShutdownHandler | PingHandler

  /** A registered pattern, its service, and whether `withMr` wraps it. */
  datatype Route = Route(pattern: string, service: Service, withMr: bool)

  const Routes: seq<Route> := [
    Route("/mr/awardable/note/", EmojiService, true),
    Route("/mr/draft_notes/", DraftNoteService, true),
    Route("/mr/draft_notes/publish", DraftNotePublisherService, true),
    Route("/pipeline", PipelineService, false),
    Route("/pipeline/trigger/", PipelineService, false),
    Route("/users/me", MeService, false),
    Route("/attachment", AttachmentService, false),
    Route("/create_mr", MergeRequestCreatorService, false),
    Route("/job", TraceFileService, false),
    Route("/project/members", ProjectListerService, false),
    Route("/merge_requests", MergeRequestListerService, false),
    Route("/shutdown", ShutdownHandler, false),
    Route("/ping", PingHandler, false)
  ]

  /** The router: the configured record and the registered table. */
  datatype Mux = Mux(data: Data, routes: seq<Route>)

  /** An option error makes `CreateRouter` panic; otherwise the table is
      registered over the configured record. */
  function CreateRouter(opts: seq<OptFunc>): (r: Crashable<Mux>)
    ensures r.Panicked? <==> ApplyOptions(Fresh, opts).Err?
    ensures r.Panicked? ==> r.reason == ApplyOptions(Fresh, opts).error
    ensures r.Returned? ==> r.value.routes == Routes && r.value.data == ApplyOptions(Fresh, opts).value
  {
    match ApplyOptions(Fresh, opts)
    case Err(e) => Panicked(e)
    case Ok(d) => Returned(Mux(d, Routes))
  }

  /** The emoji loader's verdict stands in for reading the emoji file. */
  function AttachEmojis(d: Data, emojis: Result<EmojiMap, string>): Result<Data, string> {
    match emojis
    case Err(e) => Err(e)
    case Ok(m) => Ok(d.(emojiMap := m))
  }

  /** The four options `StartServer` passes, in order. The last writes into
      the git record the second installed. */
  function StartupOptions(p: ProjectInfo, g: GitProjectInfo, emojis: Result<EmojiMap, string>): seq<OptFunc> {
    [ (d: Data) => Ok(d.(projectInfo := p)),
      (d: Data) => Ok(d.(gitInfo := g)),
      (d: Data) => AttachEmojis(d, emojis),
      (d: Data) => Ok(d.(gitInfo := d.gitInfo.(latestCommitOnRemote := RemoteCommitLookup))) ]
  }

  /** With the startup options the router panics exactly when the emojis fail
      to load; otherwise it holds the caller's session, the caller's git record
      with the remote-commit lookup installed, and the loaded emojis. */
  lemma StartupRouter(p: ProjectInfo, g: GitProjectInfo, emojis: Result<EmojiMap, string>)
    ensures CreateRouter(StartupOptions(p, g, emojis)).Panicked? <==> emojis.Err?
    ensures emojis.Ok? ==>
      (CreateRouter(StartupOptions(p, g, emojis)).value.data ==
       Data(p, g.(latestCommitOnRemote := RemoteCommitLookup), emojis.value))
  {
    var opts := StartupOptions(p, g, emojis);
    var d1 := Fresh.(projectInfo := p);
    var d2 := d1.(gitInfo := g);
    assert ApplyOptions(Fresh, opts) == ApplyOptions(d1, opts[1..]);
    assert opts[1..][0] == opts[1] && opts[1..][1..] == opts[2..];
    assert ApplyOptions(d1, opts[1..]) == ApplyOptions(d2, opts[2..]);
    match emojis
    case Err(e) =>
      assert ApplyOptions(d2, opts[2..]) == Err(e);
    case Ok(m) =>
      var d3 := d2.(emojiMap := m);
      assert opts[2..][0] == opts[2] && opts[2..][1..] == opts[3..];
      assert ApplyOptions(d2, opts[2..]) == ApplyOptions(d3, opts[3..]);
      assert opts[3..][0] == opts[3] && opts[3..][1..] == [];
  }

  /** No pattern is registered twice (a second registration would panic). */
  lemma PatternsDistinct()
    ensures forall i, j :: 0 <= i < j < |Routes| ==> Routes[i].pattern != Routes[j].pattern
  {
  }

  /** `p` is a prefix of `s`. */
  predicate IsPrefix(p: string, s: string) {
    |p| <= |s| && forall k :: 0 <= k < |p| ==> p[k] == s[k]
  }

  /** The patterns `withMr` wraps. */
  const MrPatterns: set<string> := {"/mr/awardable/note/", "/mr/draft_notes/", "/mr/draft_notes/publish"}

  /** A route is wrapped exactly when its pattern lies under `/mr/`, and the
      wrapped patterns are exactly the three merge-request ones. */
  lemma WrappedRoutes()
    ensures forall i :: 0 <= i < |Routes| ==> (Routes[i].withMr <==> IsPrefix("/mr/", Routes[i].pattern))
  {
    forall i | 0 <= i < |Routes|
      ensures Routes[i].withMr <==> IsPrefix("/mr/", Routes[i].pattern)
    {
      var s := Routes[i].pattern;
      assert |s| >= 4;
      assert IsPrefix("/mr/", s) <==> s[0] == '/' && s[1] == 'm' && s[2] == 'r' && s[3] == '/';
    }
  }

  /** The wrapped patterns are exactly the three merge-request ones. */
  lemma WrappedPatterns()
    ensures forall i :: 0 <= i < |Routes| ==> (Routes[i].withMr <==> Routes[i].pattern in MrPatterns)
    ensures forall q :: q in MrPatterns ==> Wrapped(Routes, q)
  {
  }

  /** The route registered for a path, if any. */
  function Find(routes: seq<Route>, path: string): (r: Option<Route>)
    ensures r.Some? <==> exists i :: 0 <= i < |routes| && routes[i].pattern == path
    ensures r.Some? ==> r.value in routes && r.value.pattern == path
  {
    if routes == [] then None
    else if routes[0].pattern == path then Some(routes[0])
    else Find(routes[1..], path)
  }

  /** An incoming request: its path, and what the upstream lister would answer
      were it asked while this request is handled. */
  datatype Request = Request(path: string, list: Lister)

  datatype Reply = Dispatched(service: Service) | Refused(response: Written<()>) | NotFound

  /** One request: an unregistered path is not found; a direct route reaches
      its service; a wrapped route goes through the resolver first. */
  function Handle(routes: seq<Route>, p: ProjectInfo, g: GitProjectInfo, req: Request): (s: (Step, Reply))
    ensures s.1.Refused? <==> s.0.next.Halt?
    ensures s.1.Refused? ==> s.1.response == s.0.next.response
  {
    match Find(routes, req.path)
    case None => (Step(p, [], Proceed), NotFound)
    case Some(route) =>
      if !route.withMr then (Step(p, [], Proceed), Dispatched(route.service))
      else
        var step := Resolve(p, g, req.list);
        (step, if step.next.Halt? then Refused(step.next.response) else Dispatched(route.service))
  }

  /** The session after a run, every lookup made, and one reply per request. */
  datatype Run = Run(project: ProjectInfo, lookups: seq<ListOptions>, replies: seq<Reply>)

  predicate Wrapped(routes: seq<Route>, path: string) {
    Find(routes, path).Some? && Find(routes, path).value.withMr
  }

  /** Requests handled one after another against the shared session. */
  function Serve(routes: seq<Route>, p: ProjectInfo, g: GitProjectInfo, reqs: seq<Request>): (r: Run)
    ensures |r.replies| == |reqs|
    ensures |r.lookups| <= |reqs|
    ensures r.project.projectId == p.projectId
    ensures forall i :: 0 <= i < |r.lookups| ==> r.lookups[i] == OpenOnBranch(p.projectId, g.branchName)
    decreases |reqs|
  {
    if reqs == [] then Run(p, [], [])
    else
      var (step, reply) := Handle(routes, p, g, reqs[0]);
      var rest := Serve(routes, step.project, g, reqs[1..]);
      Run(rest.project, step.lookups + rest.lookups, [reply] + rest.replies)
  }

  /** Once the session holds a merge request, no request looks one up again,
      the session stays as it is, and no request is refused. */
  lemma {:induction false} NoLookupOnceResolved(routes: seq<Route>, p: ProjectInfo, g: GitProjectInfo, reqs: seq<Request>)
    requires p.mergeId != 0
    ensures Serve(routes, p, g, reqs).lookups == []
    ensures Serve(routes, p, g, reqs).project == p
    ensures forall i :: 0 <= i < |reqs| ==> !Serve(routes, p, g, reqs).replies[i].Refused?
    decreases |reqs|
  {
    if reqs != [] {
      NoLookupOnceResolved(routes, p, g, reqs[1..]);
    }
  }

  /** Serving `a + b` is serving `a`, then serving `b` from the session `a`
      left; lookups and replies are concatenated in order. */
  lemma {:induction false} ServeAppend(routes: seq<Route>, p: ProjectInfo, g: GitProjectInfo, a: seq<Request>, b: seq<Request>)
    ensures var ra := Serve(routes, p, g, a);
      var rb := Serve(routes, ra.project, g, b);
      Serve(routes, p, g, a + b) == Run(rb.project, ra.lookups + rb.lookups, ra.replies + rb.replies)
    decreases |a|
  {
    if a == [] {
      assert a + b == b;
    } else {
      assert (a + b)[0] == a[0];
      assert (a + b)[1..] == a[1..] + b;
      var step := Handle(routes, p, g, a[0]).0;
      ServeAppend(routes, step.project, g, a[1..], b);
    }
  }

  /** After any run of direct requests, the first wrapped request whose
      lookup yields a non-zero IID is the only request of the whole run that
      looks anything up, whichever `/mr/` routes the later requests go to. */
  lemma ResolvedOnce(routes: seq<Route>, p: ProjectInfo, g: GitProjectInfo, pre: seq<Request>, reqs: seq<Request>)
    requires forall i :: 0 <= i < |pre| ==> !Wrapped(routes, pre[i].path)
    requires p.mergeId == 0 && |reqs| > 0 && Wrapped(routes, reqs[0].path)
    requires reqs[0].list(OpenOnBranch(p.projectId, g.branchName)).Ok?
    requires |reqs[0].list(OpenOnBranch(p.projectId, g.branchName)).value| > 0
    requires reqs[0].list(OpenOnBranch(p.projectId, g.branchName)).value[0].iid != 0
    ensures |Serve(routes, p, g, pre + reqs).lookups| == 1
    ensures Serve(routes, p, g, pre + reqs).project.mergeId == reqs[0].list(OpenOnBranch(p.projectId, g.branchName)).value[0].iid
  {
    DirectRoutesNeverLookUp(routes, p, g, pre);
    ServeAppend(routes, p, g, pre, reqs);
    var step := Handle(routes, p, g, reqs[0]).0;
    NoLookupOnceResolved(routes, step.project, g, reqs[1..]);
  }

  /** A lookup whose first IID is 0 leaves the session unresolved, so the next
      wrapped request looks up again. */
  lemma ZeroIidLooksAgain(routes: seq<Route>, p: ProjectInfo, g: GitProjectInfo, r1: Request, r2: Request)
    requires p.mergeId == 0 && Wrapped(routes, r1.path) && Wrapped(routes, r2.path)
    requires r1.list(OpenOnBranch(p.projectId, g.branchName)).Ok?
    requires |r1.list(OpenOnBranch(p.projectId, g.branchName)).value| > 0
    requires r1.list(OpenOnBranch(p.projectId, g.branchName)).value[0].iid == 0
    ensures |Serve(routes, p, g, [r1, r2]).lookups| == 2
  {
    TwoRequests(routes, p, g, r1, r2);
  }

  /** A refused lookup (an error or no merge request) leaves the session
      unresolved, so the next wrapped request looks up again. */
  lemma RefusedLookupRetries(routes: seq<Route>, p: ProjectInfo, g: GitProjectInfo, r1: Request, r2: Request)
    requires p.mergeId == 0 && Wrapped(routes, r1.path) && Wrapped(routes, r2.path)
    requires r1.list(OpenOnBranch(p.projectId, g.branchName)).Err? || r1.list(OpenOnBranch(p.projectId, g.branchName)) == Ok([])
    ensures Serve(routes, p, g, [r1, r2]).replies[0].Refused?
    ensures |Serve(routes, p, g, [r1, r2]).lookups| == 2
  {
    TwoRequests(routes, p, g, r1, r2);
  }

  /** A wrapped route hands the request to the resolver. */
  lemma HandleWrapped(routes: seq<Route>, p: ProjectInfo, g: GitProjectInfo, req: Request)
    requires Wrapped(routes, req.path)
    ensures Handle(routes, p, g, req).0 == Resolve(p, g, req.list)
  {
  }

  /** Serving a request first is handling it, then serving the rest
      against the session it left. */
  lemma ServeFirst(routes: seq<Route>, p: ProjectInfo, g: GitProjectInfo, req: Request, rest: seq<Request>)
    ensures var step := Handle(routes, p, g, req).0;
      && Serve(routes, p, g, [req] + rest).lookups == step.lookups + Serve(routes, step.project, g, rest).lookups
      && Serve(routes, p, g, [req] + rest).replies[0] == Handle(routes, p, g, req).1
  {
    assert ([req] + rest)[0] == req;
    assert ([req] + rest)[1..] == rest;
  }

  /** Two wrapped requests: the second looks up exactly when the first left
      the session unresolved. */
  lemma TwoRequests(routes: seq<Route>, p: ProjectInfo, g: GitProjectInfo, r1: Request, r2: Request)
    requires p.mergeId == 0 && Wrapped(routes, r1.path) && Wrapped(routes, r2.path)
    ensures var first := Resolve(p, g, r1.list);
      && Serve(routes, p, g, [r1, r2]).replies[0].Refused? == first.next.Halt?
      && |Serve(routes, p, g, [r1, r2]).lookups| == (if first.project.mergeId == 0 then 2 else 1)
  {
    var first := Resolve(p, g, r1.list);
    HandleWrapped(routes, p, g, r1);
    HandleWrapped(routes, first.project, g, r2);
    var second := Resolve(first.project, g, r2.list);
    ServeFirst(routes, p, g, r1, [r2]);
    ServeFirst(routes, first.project, g, r2, []);
    assert [r1] + [r2] == [r1, r2];
    assert [r2] + [] == [r2];
    assert Serve(routes, second.project, g, []).lookups == [];
  }

  /** Requests that never hit a wrapped route make no lookup and leave the
      session alone. */
  lemma {:induction false} DirectRoutesNeverLookUp(routes: seq<Route>, p: ProjectInfo, g: GitProjectInfo, reqs: seq<Request>)
    requires forall i :: 0 <= i < |reqs| ==> !Wrapped(routes, reqs[i].path)
    ensures Serve(routes, p, g, reqs).lookups == []
    ensures Serve(routes, p, g, reqs).project == p
    decreases |reqs|
  {
    if reqs != [] {
      DirectRoutesNeverLookUp(routes, p, g, reqs[1..]);
    }
  }

  /** The router `StartServer` builds serves the caller's session: every
      lookup asks for the open merge requests of the caller's project on the
      caller's branch, and a session that already names a merge request is
      never looked up or changed. */
  lemma StartupRouterServesSession(p: ProjectInfo, g: GitProjectInfo, m: EmojiMap, reqs: seq<Request>)
    ensures CreateRouter(StartupOptions(p, g, Ok(m))).Returned?
    ensures var mux := CreateRouter(StartupOptions(p, g, Ok(m))).value;
      var run := Serve(mux.routes, mux.data.projectInfo, mux.data.gitInfo, reqs);
      && (forall i :: 0 <= i < |run.lookups| ==> run.lookups[i] == OpenOnBranch(p.projectId, g.branchName))
      && (p.mergeId != 0 ==> run.lookups == [] && run.project == p)
  {
    StartupRouter(p, g, Ok(m));
    var g' := g.(latestCommitOnRemote := RemoteCommitLookup);
    if p.mergeId != 0 {
      NoLookupOnceResolved(Routes, p, g', reqs);
    }
  }
}
