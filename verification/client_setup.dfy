/** `Client.init`: the startup argument checks, the client fields they fill
    in, and the lookup of the branch's merge request; plus the token masking
    of the request log hook. */
module ClientSetup {
  import opened Wrappers
  import opened Strconv
  import opened Gitlab

  /** The debug-settings JSON argument, once decoded. */
  datatype DebugSettings = DebugSettings(goRequest: bool, goResponse: bool)

  /** The options handed to the API client's constructor. */
  datatype ClientOption = WithBaseURL(url: string) | WithRequestLogHook | WithResponseLogHook

  /** A constructed API client; its internals are not part of this model. */
  datatype GitClient = GitClient(token: string, options: seq<ClientOption>)

  datatype Client = Client(
    command: string, projectId: string, mergeId: int, gitlabInstance: string,
    authToken: string, logPath: string, debug: bool, git: Option<GitClient>)

  /** The collaborators `init` calls: the JSON decoder, the client
      constructor, and the merge-request lister of the constructed client. */
  datatype Env = Env(
    parseDebug: string -> Result<DebugSettings, string>,
    newClient: (string, seq<ClientOption>) -> Result<GitClient, string>,
    list: Lister)

  /** The client record after the call, and the error `init` returned, if any. */
  datatype InitResult = InitResult(client: Client, err: Option<string>)

  const ArgsError := "Must provide project ID, gitlab instance, port, and auth token!"

  /** The base URL, then the request hook when request logging is on, then the
      response hook when response logging is on. */
  function ClientOptions(instance: string, dbg: DebugSettings): (opts: seq<ClientOption>)
    ensures |opts| > 0 && opts[0] == WithBaseURL(instance + "/api/v4")
    ensures WithRequestLogHook in opts <==> dbg.goRequest
    ensures WithResponseLogHook in opts <==> dbg.goResponse
    ensures |opts| == 1 + (if dbg.goRequest then 1 else 0) + (if dbg.goResponse then 1 else 0)
  {
    [WithBaseURL(instance + "/api/v4")]
      + (if dbg.goRequest then [WithRequestLogHook] else [])
      + (if dbg.goResponse then [WithResponseLogHook] else [])
  }

  /** Every check before the first field write passes: the settings decode and
      the project id, instance URL and token are all non-empty. */
  predicate Validated(args: seq<string>, env: Env) {
    && |args| >= 6
    && env.parseDebug(args[5]).Ok?
    && args[1] != "" && args[2] != "" && args[4] != ""
  }

  /** The client with the four string fields written. */
  function Configured(c: Client, args: seq<string>): Client
    requires |args| >= 6
  {
    c.(gitlabInstance := args[2], projectId := args[1], authToken := args[4], logPath := args[|args| - 1])
  }

  /** `init` once the argument list is long enough for every index it reads. */
  function InitFrom(c: Client, args: seq<string>, branchName: string, env: Env): InitResult
    requires |args| >= 6
  {
    var projectId := args[1];
    var instance := args[2];
    var token := args[4];
    var settings := args[5];
    match env.parseDebug(settings)
    case Err(e) => InitResult(c, Some("Could not parse debug settings: " + e + ", " + settings))
    case Ok(dbg) =>
      if projectId == "" then InitResult(c, Some("Project ID cannot be empty"))
      else if instance == "" then InitResult(c, Some("GitLab instance URL cannot be empty"))
      else if token == "" then InitResult(c, Some("Auth token cannot be empty"))
      else
        var c' := Configured(c, args);
        match env.newClient(token, ClientOptions(instance, dbg))
        case Err(e) => InitResult(c', Some("Failed to create client: " + e))
        case Ok(git) =>
          match env.list(OpenOnBranch(projectId, branchName))
          case Err(e) => InitResult(c', Some("Failed to list merge requests: " + e))
          case Ok(mrs) =>
            if |mrs| == 0 then InitResult(c', Some("No merge requests found"))
            else
              match Atoi(Itoa(mrs[0].iid))
              case Err(e) => InitResult(c', Some(e))
              case Ok(id) => InitResult(c'.(mergeId := id, git := Some(git)), None)
  }

  /** `init` as written: the guard admits five arguments, but the settings are
      read from index 5, which is out of range for exactly five. */
  function InitAsWritten(c: Client, args: seq<string>, branchName: string, env: Env): Crashable<InitResult> {
    if |args| < 5 then Returned(InitResult(c, Some(ArgsError)))
    else if |args| == 5 then Panicked("runtime error: index out of range [5] with length 5")
    else Returned(InitFrom(c, args, branchName, env))
  }

  /** Any five arguments (program name, project id, instance, port, token)
      pass the guard, and the read of the settings argument then panics. */
  lemma FiveArgumentsPanic(c: Client, args: seq<string>, branchName: string, env: Env)
    requires |args| == 5
    ensures InitAsWritten(c, args, branchName, env).Panicked?
  {
  }

  /** `init` with the guard covering every index read. The checks run in a
      fixed order and the first failure wins; no field is written before the
      settings decode and the three values are non-empty; after that the four
      string fields stay written even when a later step fails, while the
      merge id and the API client change only on full success. */
  function Init(c: Client, args: seq<string>, branchName: string, env: Env): (r: InitResult)
    ensures |args| < 6 ==> r == InitResult(c, Some(ArgsError))
    ensures |args| >= 6 && env.parseDebug(args[5]).Err? ==>
      r == InitResult(c, Some("Could not parse debug settings: " + env.parseDebug(args[5]).error + ", " + args[5]))
    ensures |args| >= 6 && env.parseDebug(args[5]).Ok? && args[1] == "" ==>
      r == InitResult(c, Some("Project ID cannot be empty"))
    ensures |args| >= 6 && env.parseDebug(args[5]).Ok? && args[1] != "" && args[2] == "" ==>
      r == InitResult(c, Some("GitLab instance URL cannot be empty"))
    ensures |args| >= 6 && env.parseDebug(args[5]).Ok? && args[1] != "" && args[2] != "" && args[4] == "" ==>
      r == InitResult(c, Some("Auth token cannot be empty"))
    ensures r.client != c ==> Validated(args, env)
    ensures Validated(args, env) ==>
      && r.client.gitlabInstance == args[2] && r.client.projectId == args[1]
      && r.client.authToken == args[4] && r.client.logPath == args[|args| - 1]
      && r.client.command == c.command && r.client.debug == c.debug
    ensures r.err.Some? ==> r.client.mergeId == c.mergeId && r.client.git == c.git
    ensures Validated(args, env) && env.newClient(args[4], ClientOptions(args[2], env.parseDebug(args[5]).value)).Err? ==>
      r.err == Some("Failed to create client: " + env.newClient(args[4], ClientOptions(args[2], env.parseDebug(args[5]).value)).error)
    ensures Validated(args, env) && env.newClient(args[4], ClientOptions(args[2], env.parseDebug(args[5]).value)).Ok? ==>
      match env.list(OpenOnBranch(args[1], branchName))
      case Err(e) => r.err == Some("Failed to list merge requests: " + e)
      case Ok(mrs) => |mrs| == 0 ==> r.err == Some("No merge requests found")
  {
    if |args| < 6 then InitResult(c, Some(ArgsError)) else InitFrom(c, args, branchName, env)
  }

  /** Whenever the guard does not panic, the code as written and the corrected
      guard agree. */
  lemma AsWrittenAgreesOffFive(c: Client, args: seq<string>, branchName: string, env: Env)
    requires |args| != 5
    ensures InitAsWritten(c, args, branchName, env) == Returned(Init(c, args, branchName, env))
  {
  }

  /** The port argument (index 3) is never validated: whatever it holds,
      `init` behaves the same. */
  lemma PortNeverRead(c: Client, args: seq<string>, port: string, branchName: string, env: Env)
    requires |args| > 3
    ensures Init(c, args[3 := port], branchName, env) == Init(c, args, branchName, env)
  {
    var args' := args[3 := port];
    if |args| >= 6 {
      assert args'[1] == args[1] && args'[2] == args[2] && args'[4] == args[4] && args'[5] == args[5];
      assert args'[|args'| - 1] == args[|args| - 1];
    }
  }

  /** When every step succeeds the merge id is the first listed IID: printing
      and re-parsing it cannot fail, so the Atoi error branch is dead. */
  lemma InitResolvesFirstIid(c: Client, args: seq<string>, branchName: string, env: Env)
    requires Validated(args, env)
    requires env.newClient(args[4], ClientOptions(args[2], env.parseDebug(args[5]).value)).Ok?
    requires env.list(OpenOnBranch(args[1], branchName)).Ok?
    requires |env.list(OpenOnBranch(args[1], branchName)).value| > 0
    ensures Init(c, args, branchName, env).err.None?
    ensures Init(c, args, branchName, env).client.mergeId == env.list(OpenOnBranch(args[1], branchName)).value[0].iid
    ensures Init(c, args, branchName, env).client.git ==
      Some(env.newClient(args[4], ClientOptions(args[2], env.parseDebug(args[5]).value)).value)
  {
    AtoiItoa(env.list(OpenOnBranch(args[1], branchName)).value[0].iid);
  }

  const TokenHeader := "Private-Token"
  const Mask := "xxxx"

  /** The headers the dump saw, the headers left on the request, and the log entry. */
  datatype LoggedRequest = LoggedRequest(dumped: map<string, string>, after: map<string, string>, entry: string)

  /** `requestLogger`: remember the token (empty when the header is absent),
      overwrite it with the mask, dump the request, then write the remembered
      value back. `dump` stands for `httputil.DumpRequest`. */
  function RequestLog(headers: map<string, string>, dump: map<string, string> -> string): (r: LoggedRequest)
    ensures TokenHeader in r.dumped && r.dumped[TokenHeader] == Mask
    ensures r.dumped.Keys == headers.Keys + {TokenHeader}
    ensures forall k :: k in headers && k != TokenHeader ==> r.dumped[k] == headers[k]
    ensures TokenHeader in headers ==> r.after == headers
    ensures TokenHeader !in headers ==> r.after.Keys == headers.Keys + {TokenHeader} && r.after[TokenHeader] == ""
    ensures forall k :: k in headers && k != TokenHeader ==> r.after[k] == headers[k]
    ensures r.entry == "\n-- REQUEST --\n" + dump(r.dumped) + "\n"
  {
    var token := if TokenHeader in headers then headers[TokenHeader] else "";
    var masked := headers[TokenHeader := Mask];
    LoggedRequest(masked, masked[TokenHeader := token], "\n-- REQUEST --\n" + dump(masked) + "\n")
  }
}
