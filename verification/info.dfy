/** The legacy info handler (`GET /info`) of the older package generation,
    whose wording differs from the newer services. */
module Info {
  import opened Envelope
  import opened Upstream

  datatype InfoData = InfoData(title: string)

  const Words := Upstream.Wording(
    "Could not get project info and initialize gitlab.nvim plugin",
    "Gitlab returned non-200 status",
    "An error occured on the /info endpoint")

  const SuccessMessage := "Merge requests retrieved"

  /** The handler's fake client: a non-empty error text is a transport error;
      otherwise it answers with its status code (200 when left unset) and its title. */
  function FakeHandlerClient(title: string, error: string, statusCode: int): (o: Outcome<InfoData>)
    ensures o.TransportError? <==> error != ""
    ensures o.TransportError? ==> o.err == error
    ensures o.Answered? ==> o.value == InfoData(title) && o.status == (if statusCode == 0 then StatusOK else statusCode)
  {
    if error != "" then TransportError(error)
    else Answered(if statusCode == 0 then StatusOK else statusCode, InfoData(title))
  }

  /** Only GET is served. In this generation the rejection puts "Expected GET"
      in the message and "Invalid request type" in the details. */
  function InfoHandler(verb: string, call: Outcome<InfoData>): (w: Written<InfoData>)
    ensures Consistent(w)
    ensures verb != "GET" ==> w.body == Failure(StatusMethodNotAllowed, "Expected GET", "Invalid request type")
    ensures w.body.Success? <==> verb == "GET" && KindOf(call) == Accepted
    ensures w.body.Success? ==> w.body.message == SuccessMessage && w.body.data == call.value
    ensures verb == "GET" && call.TransportError? ==> w.body == Failure(StatusInternalServerError, Words.failed, call.err)
    ensures verb == "GET" && KindOf(call) == Rejected ==> w.body == Failure(call.status, Words.rejected, Words.rejectedDetails)
  {
    if verb != "GET" then HandleError("Invalid request type", "Expected GET", StatusMethodNotAllowed)
    else Classify(Words, SuccessMessage, call)
  }

  /** The four cases the handler's tests exercise. */
  lemma TestedCases()
    ensures InfoHandler("GET", FakeHandlerClient("Some Title", "", 0)).body
         == Success(StatusOK, "Merge requests retrieved", InfoData("Some Title"))
    ensures InfoHandler("POST", FakeHandlerClient("", "", 0)).body
         == Failure(StatusMethodNotAllowed, "Expected GET", "Invalid request type")
    ensures InfoHandler("GET", FakeHandlerClient("", "Some error from Gitlab", 0)).body
         == Failure(StatusInternalServerError, "Could not get project info and initialize gitlab.nvim plugin", "Some error from Gitlab")
    ensures InfoHandler("GET", FakeHandlerClient("", "", StatusSeeOther)).body
         == Failure(StatusSeeOther, "Gitlab returned non-200 status", "An error occured on the /info endpoint")
  {
  }
}
