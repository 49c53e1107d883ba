/** The merge-request creation service (`POST /create_mr`) and the fake
    upstream client its tests substitute for the real one. */
module CreateMr {
  import opened Wrappers
  import opened Envelope
  import opened Upstream

  /** The bound request payload. */
  datatype CreateMrRequest = CreateMrRequest(
    title: string, description: string, targetBranch: string, deleteBranch: bool, squash: bool)

  /** The created merge request as the client returns it. The service passes
      it through as the envelope's data without reading any field, and the
      fake returns a zero value, so it is kept opaque here. */
  datatype CreatedMr = CreatedMr

  const ZeroMr := CreatedMr

  const FailMessage := "Could not create MR"
  const Words := Upstream.Wording(FailMessage, FailMessage, "An error occurred on the /create_mr endpoint")

  /** Go's `(*MergeRequest, *Response, error)` triple; the response is reduced
      to its status code. */
  datatype CallReturn = CallReturn(mr: Option<CreatedMr>, resp: Option<int>, err: Option<string>)

  /** `fakeMergeCreatorClient.CreateMergeRequest`: the shared test base decides
      between an error and a response status; an error yields `(nil, nil, err)`,
      a status a zero merge request together with that response. */
  function FakeCreate(base: Result<int, string>): (r: CallReturn)
    ensures r.err.Some? <==> base.Err?
    ensures r.err.Some? ==> r.mr.None? && r.resp.None? && r.err.value == base.error
    ensures r.err.None? ==> r.mr == Some(ZeroMr) && r.resp == Some(base.value)
  {
    match base
    case Err(e) => CallReturn(None, None, Some(e))
    case Ok(status) => CallReturn(Some(ZeroMr), Some(status), None)
  }

  /** A service reads the error first and only then the response's status. */
  predicate Readable(c: CallReturn) {
    c.err.Some? || (c.resp.Some? && c.mr.Some?)
  }

  function ToOutcome(c: CallReturn): (o: Outcome<CreatedMr>)
    requires Readable(c)
    ensures o.TransportError? <==> c.err.Some?
    ensures o.TransportError? ==> o.err == c.err.value
    ensures o.Answered? ==> o.status == c.resp.value && o.value == c.mr.value
  {
    if c.err.Some? then TransportError(c.err.value) else Answered(c.resp.value, c.mr.value)
  }

  /** Whatever the test base decides, the fake's triple is one a service can
      read without dereferencing nil, and it reads back as that decision. */
  lemma FakeIsReadable(base: Result<int, string>)
    ensures Readable(FakeCreate(base))
    ensures base.Err? ==> ToOutcome(FakeCreate(base)) == TransportError(base.error)
    ensures base.Ok? ==> ToOutcome(FakeCreate(base)) == Answered(base.value, ZeroMr)
  {
  }

  function SuccessMessage(title: string): string {
    "MR '" + title + "' created"
  }

  /** The service: the title is checked first, then the target branch, and only
      a payload passing both reaches the upstream call, whose outcome is then
      classified. */
  function CreateMrService(req: CreateMrRequest, call: Outcome<CreatedMr>): (w: Written<CreatedMr>)
    ensures Consistent(w)
    ensures w.body.Failure? ==> w.body.message == FailMessage
    ensures w.body.Success? <==> req.title != "" && req.targetBranch != "" && KindOf(call) == Accepted
    ensures w.body.Success? ==> w.header == StatusOK && w.body.message == SuccessMessage(req.title) && w.body.data == call.value
    ensures req.title == "" ==> w.header == StatusBadRequest && w.body.details == "Title cannot be empty"
    ensures req.title != "" && req.targetBranch == "" ==> w.header == StatusBadRequest && w.body.details == "Target branch cannot be empty"
    ensures req.title != "" && req.targetBranch != "" && call.TransportError? ==> w.header == StatusInternalServerError && w.body.details == call.err
    ensures req.title != "" && req.targetBranch != "" && KindOf(call) == Rejected ==> w.header == call.status && w.body.details == Words.rejectedDetails
  {
    if req.title == "" then HandleError("Title cannot be empty", FailMessage, StatusBadRequest)
    else if req.targetBranch == "" then HandleError("Target branch cannot be empty", FailMessage, StatusBadRequest)
    else Classify(Words, SuccessMessage(req.title), call)
  }

  /** A payload failing a field check never depends on the upstream: the
      answer is the same whatever the client would have returned. */
  lemma FieldChecksPrecedeUpstream(req: CreateMrRequest, c1: Outcome<CreatedMr>, c2: Outcome<CreatedMr>)
    requires req.title == "" || req.targetBranch == ""
    ensures CreateMrService(req, c1) == CreateMrService(req, c2)
  {
  }

  const TestRequest := CreateMrRequest("Some title", "Some description", "main", false, false)

  /** The five cases the service's tests exercise, each with the fake client. */
  lemma TestedCases(errText: string)
    ensures CreateMrService(TestRequest, ToOutcome(FakeCreate(Ok(StatusOK)))).body
         == Success(StatusOK, "MR 'Some title' created", ZeroMr)
    ensures CreateMrService(TestRequest, ToOutcome(FakeCreate(Err(errText)))).body
         == Failure(StatusInternalServerError, "Could not create MR", errText)
    ensures CreateMrService(TestRequest, ToOutcome(FakeCreate(Ok(StatusSeeOther)))).body
         == Failure(StatusSeeOther, "Could not create MR", "An error occurred on the /create_mr endpoint")
    ensures CreateMrService(TestRequest.(title := ""), ToOutcome(FakeCreate(Ok(StatusOK)))).body
         == Failure(StatusBadRequest, "Could not create MR", "Title cannot be empty")
    ensures CreateMrService(TestRequest.(targetBranch := ""), ToOutcome(FakeCreate(Ok(StatusOK)))).body
         == Failure(StatusBadRequest, "Could not create MR", "Target branch cannot be empty")
  {
    FakeIsReadable(Ok(StatusOK));
    FakeIsReadable(Err(errText));
    FakeIsReadable(Ok(StatusSeeOther));
  }
}
