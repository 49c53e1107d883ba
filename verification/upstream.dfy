/** The three-way classification every service applies to an upstream call. */
module Upstream {
  import opened Envelope

  /** How an upstream call ended: the client returned an error, or a response
      with a transport status and a decoded value. */
  datatype Outcome<+T> = TransportError(err: string) | Answered(status: int, value: T)

  /** The remote API accepted the call. */
  predicate IsSuccess(status: int) {
    200 <= status < 300
  }

  /** The per-endpoint strings: the message for a transport error, and the
      message and detail for a non-2xx answer. */
  datatype Wording = Wording(failed: string, rejected: string, rejectedDetails: string)

  /** The error taxonomy, independent of any wording. */
  datatype Kind = Transport | Rejected | Accepted

  function KindOf<T>(o: Outcome<T>): Kind {
    match o
    case TransportError(_) => Transport
    case Answered(s, _) => if IsSuccess(s) then Accepted else Rejected
  }

  /** A transport error becomes a 500 carrying the error text; a non-2xx answer
      is forwarded with its own status and a fixed detail; a 2xx answer becomes
      a 200 success carrying the decoded value. */
  function Classify<T>(w: Wording, successMessage: string, o: Outcome<T>): (r: Written<T>)
    ensures Consistent(r)
    ensures r.body.Success? <==> KindOf(o) == Accepted
    ensures r.body.Success? ==> r.header == StatusOK && r.body.message == successMessage && r.body.data == o.value
    ensures o.TransportError? ==> r.header == StatusInternalServerError && r.body.message == w.failed && r.body.details == o.err
    ensures KindOf(o) == Rejected ==> r.header == o.status && r.body.message == w.rejected && r.body.details == w.rejectedDetails
  {
    match o
    case TransportError(e) => HandleError(e, w.failed, StatusInternalServerError)
    case Answered(s, v) =>
      if IsSuccess(s) then Succeed(successMessage, v)
      else HandleError(w.rejectedDetails, w.rejected, s)
  }

  /** The classification is the same for every endpoint: two services that
      see the same outcome answer with the same status and the same variant. */
  lemma ClassificationIsUniform<T>(w1: Wording, m1: string, w2: Wording, m2: string, o: Outcome<T>)
    ensures Classify(w1, m1, o).header == Classify(w2, m2, o).header
    ensures Classify(w1, m1, o).body.Success? == Classify(w2, m2, o).body.Success?
  {
  }

  /** The status alone tells the kind whenever the remote API never answers 500
      itself: a 500 is a transport error and a 200 an accepted call. */
  lemma StatusRevealsKind<T>(w: Wording, m: string, o: Outcome<T>)
    requires o.Answered? ==> o.status != StatusInternalServerError
    ensures var r := Classify(w, m, o);
      (r.header == StatusInternalServerError <==> KindOf(o) == Transport) &&
      (r.header == StatusOK <==> KindOf(o) == Accepted)
  {
  }
}
