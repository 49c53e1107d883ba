/** Startup: the readiness probe (`checkServer`) and the order in which
    `StartServer` serves, probes and announces the port. */
module Lifecycle {
  import opened Wrappers
  import opened Strconv

  const MaxProbes := 10
  const StartFailure := "Could not start server!"
  const NilDereference := "runtime error: invalid memory address or nil pointer dereference"

  /** One `http.Get` of `/ping`: the response's status, if a response came
      back, and the error, if one was returned. */
  datatype Probe = Probe(resp: Option<int>, err: Option<string>)

  /** The probe saw the server: no error and a 200. */
  predicate Ready(p: Probe) {
    p.err.None? && p.resp == Some(200)
  }

  /** `checkServer` as written, from attempt `i` on: it reads the response's
      status before looking at the error, so a probe that came back without
      a response dereferences nil. The result is the returned error, if any. */
  function CheckServerAsWritten(probe: nat -> Probe, i: nat): Crashable<Option<string>>
    requires i <= MaxProbes
    decreases MaxProbes - i
  {
    if i == MaxProbes then Returned(Some(StartFailure))
    else
      match probe(i).resp
      case None => Panicked(NilDereference)
      case Some(status) =>
        if status == 200 && probe(i).err.None? then Returned(None)
        else CheckServerAsWritten(probe, i + 1)
  }

  /** A first probe whose connection is refused comes back with an error and
      no response, and the code as written panics on it instead of retrying. */
  lemma RefusedConnectionPanics()
    ensures CheckServerAsWritten((_: nat) => Probe(None, Some("connection refused")), 0).Panicked?
  {
  }

  /** As long as every probe returns a response, the code as written does
      what it means to: nil exactly when some probe within the ten is ready. */
  lemma {:induction false} AsWrittenWithResponses(probe: nat -> Probe, i: nat)
    requires i <= MaxProbes
    requires forall j :: i <= j < MaxProbes ==> probe(j).resp.Some?
    ensures CheckServerAsWritten(probe, i).Returned?
    ensures CheckServerAsWritten(probe, i).value.None? <==> exists k :: i <= k < MaxProbes && Ready(probe(k))
    ensures CheckServerAsWritten(probe, i).value.Some? ==> CheckServerAsWritten(probe, i).value.value == StartFailure
    decreases MaxProbes - i
  {
    if i < MaxProbes {
      AsWrittenWithResponses(probe, i + 1);
    }
  }

  /** `checkServer` with the error looked at first: at most ten probes, nil
      at the first ready one, and "Could not start server!" when none is. */
  method CheckServer(probe: nat -> Probe) returns (err: Option<string>, attempts: nat)
    ensures 1 <= attempts <= MaxProbes
    ensures forall j :: 0 <= j < attempts - 1 ==> !Ready(probe(j))
    ensures err.None? <==> Ready(probe(attempts - 1))
    ensures err.None? <==> exists k :: 0 <= k < MaxProbes && Ready(probe(k))
    ensures err.Some? ==> err.value == StartFailure && attempts == MaxProbes
  {
    attempts := 0;
    while attempts < MaxProbes
      invariant attempts <= MaxProbes
      invariant forall j :: 0 <= j < attempts ==> !Ready(probe(j))
    {
      var p := probe(attempts);
      attempts := attempts + 1;
      if p.err.None? && p.resp == Some(200) {
        return None, attempts;
      }
    }
    return Some(StartFailure), attempts;
  }

  /** What the process does, in order. */
  datatype Event = Serving | Stdout(line: string) | Stderr(line: string) | Exit(code: int) | WatchingShutdown

  const AnnouncePrefix := "Server started on port:  "

  /** `fmt.Println("Server started on port: ", port)`: the two operands
      joined by a space, then a newline. */
  function AnnounceLine(port: nat): string {
    AnnouncePrefix + Itoa(port) + "\n"
  }

  predicate Announced(trace: seq<Event>) {
    exists i :: 0 <= i < |trace| && trace[i].Stdout?
  }

  /** The editor reads the port back from the line. */
  lemma AnnouncedPortParses(port: nat)
    requires port <= MaxInt
    ensures var line := AnnounceLine(port);
      |line| > |AnnouncePrefix| && line[..|AnnouncePrefix|] == AnnouncePrefix &&
      Atoi(line[|AnnouncePrefix|..|line| - 1]) == Ok(port)
  {
    var line := AnnounceLine(port);
    assert line[|AnnouncePrefix|..|line| - 1] == Itoa(port);
    AtoiItoa(port);
  }

  /** `StartServer` after the router is built: a listener that cannot bind
      ends the process before serving; otherwise it serves, probes, and
      announces the port only when a probe succeeded, then waits for shutdown. */
  method StartServer(listen: Result<nat, string>, probe: nat -> Probe) returns (trace: seq<Event>)
    ensures listen.Err? ==> trace == [Stderr("Error starting server: " + listen.error + "\n"), Exit(1)]
    ensures Announced(trace) <==> listen.Ok? && exists k :: 0 <= k < MaxProbes && Ready(probe(k))
    ensures Announced(trace) ==> trace == [Serving, Stdout(AnnounceLine(listen.value)), WatchingShutdown]
    ensures listen.Ok? && !Announced(trace) ==>
      trace == [Serving, Stderr("Server did not respond: " + StartFailure + "\n"), Exit(1)]
  {
    if listen.Err? {
      trace := [Stderr("Error starting server: " + listen.error + "\n"), Exit(1)];
      return;
    }
    var port := listen.value;
    trace := [Serving];
    var err, _ := CheckServer(probe);
    if err.Some? {
      trace := trace + [Stderr("Server did not respond: " + err.value + "\n"), Exit(1)];
      return;
    }
    trace := trace + [Stdout(AnnounceLine(port)), WatchingShutdown];
    assert trace[1].Stdout?;
  }
}
