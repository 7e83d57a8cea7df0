/** The webhook server: the secret check, fetching the contracts of a task,
    building and posting the findings payload, the background processing
    of one notification and the webhook endpoint that enqueues it.  The
    HTTP client and the auditing service are oracles passed in as
    functions; the background-task list is the only state. */
module Server {
  import opened Wrappers
  import opened Auditor

  /** The webhook body: a task and where to fetch and post for it. */
  datatype Notification = Notification(taskId: string, getContractsUrl: string, postFindingsUrl: string)

  /** The part of the configuration the server reads.  `webhookSecret`
      defaults to `None`. */
  datatype Settings = Settings(agent4renaApiKey: string, webhookSecret: Option<string>)

  datatype HttpException = HttpException(statusCode: int, detail: string)

  /** Python truthiness of the optional secret: `None` and `""` are false,
      every other string is true. */
  function SecretConfigured(config: Settings): (b: bool)
    ensures config.webhookSecret == None ==> !b
    ensures config.webhookSecret == Some("") ==> !b
    ensures config.webhookSecret.Some? && config.webhookSecret.value != "" ==> b
  {
    config.webhookSecret.Some? && config.webhookSecret.value != ""
  }

  /** The authentication dependency; `header` is the `X-Webhook-Secret`
      header, `None` when the request has none. */
  function VerifyWebhookSecret(header: Option<string>, config: Settings): (r: Result<bool, HttpException>)
    ensures !SecretConfigured(config) ==> r == Success(true)
    ensures SecretConfigured(config) ==> (r.Success? <==> header == Some(config.webhookSecret.value))
    ensures r.Success? ==> r.value
    ensures r.Failure? ==> r.error == HttpException(401, "Invalid webhook secret")
  {
    if SecretConfigured(config) && header != config.webhookSecret then
      Failure(HttpException(401, "Invalid webhook secret"))
    else
      Success(true)
  }

  /** With a secret configured, a request without the header is refused. */
  lemma MissingHeaderRejected(config: Settings)
    requires SecretConfigured(config)
    ensures VerifyWebhookSecret(None, config) == Failure(HttpException(401, "Invalid webhook secret"))
  {
  }

  // ---------------------------------------------------------------------
  // JSON values

  /** A decoded JSON document.  Numbers are kept as integers. */
  datatype Json =
    | Null
    | Bool(b: bool)
    | Number(n: int)
    | Str(s: string)
    | Array(items: seq<Json>)
    | Object(fields: map<string, Json>)

  /** Python truthiness of the decoded value.  A failed fetch (`None`) and
      an empty list of files are false; a non-empty list is true. */
  function Truthy(j: Json): (t: bool)
    ensures j == Null || j == Array([]) || j == Object(map[]) ==> !t
    ensures j.Array? && j.items != [] ==> t
  {
    match j
    case Null => false
    case Bool(b) => b
    case Number(n) => n != 0
    case Str(s) => s != ""
    case Array(items) => items != []
    case Object(fields) => fields != map[]
  }

  // ---------------------------------------------------------------------
  // Fetching the contracts (fetch_solidity_files)

  /** The `X-API-Key` header sent with every call to the platform. */
  function ApiKeyHeaders(config: Settings): (h: map<string, string>)
    ensures h.Keys == {"X-API-Key"} && h["X-API-Key"] == config.agent4renaApiKey
  {
    map["X-API-Key" := config.agent4renaApiKey]
  }

  datatype GetRequest = GetRequest(url: string, headers: map<string, string>)

  /** What the HTTP client makes of a GET: a transport error, or a status
      and a body that decodes as JSON (`Some`) or does not (`None`). */
  datatype GetResponse = GetFailed | GetReplied(status: int, body: Option<Json>)

  /** `raise_for_status` lets exactly the 2xx statuses through. */
  predicate IsSuccess(status: int) {
    200 <= status < 300
  }

  function ContractsRequest(url: string, config: Settings): (req: GetRequest)
    ensures req.url == url && req.headers == ApiKeyHeaders(config)
  {
    GetRequest(url, ApiKeyHeaders(config))
  }

  /** Every failure (transport, status, decoding) is logged and turned
      into `None`, here `Null`; nothing is raised. */
  function FetchSolidityFiles(url: string, config: Settings, get: GetRequest -> GetResponse): (r: Json)
    ensures r != Null ==>
      var resp := get(ContractsRequest(url, config));
      resp.GetReplied? && IsSuccess(resp.status) && resp.body == Some(r)
    ensures var resp := get(ContractsRequest(url, config));
      resp.GetReplied? && IsSuccess(resp.status) && resp.body.Some? ==> r == resp.body.value
    ensures get(ContractsRequest(url, config)).GetFailed? ==> r == Null
  {
    match get(ContractsRequest(url, config))
    case GetFailed => Null
    case GetReplied(status, body) =>
      if !IsSuccess(status) then Null
      else if body.None? then Null
      else body.value
  }

  // ---------------------------------------------------------------------
  // The findings payload (send_audit_results)

  /** `model_dump()` of one finding. */
  function Dump(f: Finding): (r: Json)
    ensures r.Object? && r.fields.Keys == {"title", "description", "severity", "file_path"}
    ensures LoadFinding(r) == Some(f)
  {
    Object(map["title" := Str(f.title), "description" := Str(f.description),
               "severity" := Str(f.severity), "file_path" := Str(f.filePath)])
  }

  /** Reads a dumped record back; the partner of `Dump`. */
  function LoadFinding(j: Json): (r: Option<Finding>)
    ensures r.Some? ==> j.Object? && "title" in j.fields && j.fields["title"] == Str(r.value.title)
  {
    if j.Object? && "title" in j.fields && "description" in j.fields
       && "severity" in j.fields && "file_path" in j.fields
       && j.fields["title"].Str? && j.fields["description"].Str?
       && j.fields["severity"].Str? && j.fields["file_path"].Str?
    then Some(Finding(j.fields["title"].s, j.fields["description"].s,
                      j.fields["severity"].s, j.fields["file_path"].s))
    else None
  }

  /** `[finding.model_dump() for finding in findings]`. */
  function DumpAll(fs: seq<Finding>): (r: seq<Json>)
    ensures |r| == |fs|
    ensures forall i :: 0 <= i < |fs| ==> LoadFinding(r[i]) == Some(fs[i])
  {
    seq(|fs|, i requires 0 <= i < |fs| => Dump(fs[i]))
  }

  /** `{"task_id": task_id, "findings": [finding.model_dump() for ...]}`. */
  function BuildPayload(taskId: string, audit: AuditResponse): (r: Json)
    ensures r.Object? && r.fields.Keys == {"task_id", "findings"}
    ensures r.fields["task_id"] == Str(taskId)
    ensures r.fields["findings"].Array? && |r.fields["findings"].items| == |audit.findings|
  {
    Object(map["task_id" := Str(taskId),
               "findings" := Array(DumpAll(audit.findings))])
  }

  /** Reads a list of dumped records back, failing on the first bad one. */
  function LoadFindings(items: seq<Json>): (r: Option<seq<Finding>>)
    ensures r.Some? ==> |r.value| == |items|
  {
    if items == [] then Some([])
    else match (LoadFinding(items[0]), LoadFindings(items[1..]))
      case (Some(f), Some(fs)) => Some([f] + fs)
      case _ => None
  }

  /** Reads a payload back into the task and the audit it reports. */
  function ReadPayload(j: Json): (r: Option<(string, AuditResponse)>)
    ensures r.Some? ==> j.Object? && "task_id" in j.fields && j.fields["task_id"] == Str(r.value.0)
  {
    if j.Object? && "task_id" in j.fields && "findings" in j.fields
       && j.fields["task_id"].Str? && j.fields["findings"].Array?
    then match LoadFindings(j.fields["findings"].items)
      case Some(fs) => Some((j.fields["task_id"].s, AuditResponse(fs)))
      case None => None
    else None
  }

  lemma {:induction false} LoadDumpedFindings(fs: seq<Finding>)
    ensures LoadFindings(DumpAll(fs)) == Some(fs)
  {
    if fs != [] {
      assert DumpAll(fs)[1..] == DumpAll(fs[1..]);
      LoadDumpedFindings(fs[1..]);
      assert [fs[0]] + fs[1..] == fs;
    }
  }

  /** The payload carries the task and every finding, in order: reading it
      back gives exactly what was sent. */
  lemma ReadBuiltPayload(taskId: string, audit: AuditResponse)
    ensures ReadPayload(BuildPayload(taskId, audit)) == Some((taskId, audit))
  {
    LoadDumpedFindings(audit.findings);
  }

  datatype PostRequest = PostRequest(url: string, payload: Json, headers: map<string, string>)

  /** What the HTTP client makes of a POST: a transport error or a status. */
  datatype PostResponse = RequestFailed | Replied(status: int)

  /** How the send ended; each failure is one of the logged cases. */
  datatype Delivery = Delivered | NetworkError | HttpError(status: int)

  /** The POST that reports `audit`.  The API key comes from the
      application's configuration, not from a parameter. */
  function FindingsRequest(callbackUrl: string, taskId: string, audit: AuditResponse, appConfig: Settings): (req: PostRequest)
    ensures req.url == callbackUrl && req.payload == BuildPayload(taskId, audit)
    ensures req.headers.Keys == {"Content-Type", "X-API-Key"}
    ensures req.headers["Content-Type"] == "application/json"
    ensures req.headers["X-API-Key"] == appConfig.agent4renaApiKey
  {
    PostRequest(callbackUrl, BuildPayload(taskId, audit),
                map["Content-Type" := "application/json", "X-API-Key" := appConfig.agent4renaApiKey])
  }

  /** Every error is caught and logged: the result is a delivery report,
      never an exception. */
  function SendAuditResults(callbackUrl: string, taskId: string, audit: AuditResponse,
                            appConfig: Settings, post: PostRequest -> PostResponse): (r: Delivery)
    ensures var resp := post(FindingsRequest(callbackUrl, taskId, audit, appConfig));
      && (r == Delivered <==> resp.Replied? && IsSuccess(resp.status))
      && (r == NetworkError <==> resp.RequestFailed?)
      && (r.HttpError? <==> resp.Replied? && !IsSuccess(resp.status))
      && (r.HttpError? ==> r.status == resp.status)
  {
    match post(FindingsRequest(callbackUrl, taskId, audit, appConfig))
    case RequestFailed => NetworkError
    case Replied(status) => if IsSuccess(status) then Delivered else HttpError(status)
  }

  // ---------------------------------------------------------------------
  // Processing one notification (process_notification)

  /** The calls one notification makes to the outside world, in order. */
  datatype Call =
    | FetchCall(fetch: GetRequest)
    | AuditCall(contents: Json)
    | SendCall(send: PostRequest)

  /** How processing ended.  Every exception is caught and logged. */
  datatype NotificationOutcome =
    | NothingFetched        // the fetch gave nothing truthy
    | AuditFailed           // setting up the auditor raised
    | Reported(delivery: Delivery)

  /** `config` is the task's configuration, `appConfig` the application's
      (used for the POST); `auditor` stands for constructing the auditor
      and calling `audit_files` (`None`: the construction raised). */
  method ProcessNotification(
    n: Notification, config: Settings, appConfig: Settings,
    get: GetRequest -> GetResponse, auditor: Json -> Option<AuditResponse>, post: PostRequest -> PostResponse)
    returns (outcome: NotificationOutcome, calls: seq<Call>)
    ensures |calls| >= 1 && calls[0] == FetchCall(ContractsRequest(n.getContractsUrl, config))
    ensures var content := FetchSolidityFiles(n.getContractsUrl, config, get);
      && (!Truthy(content) ==> outcome == NothingFetched && calls == calls[..1])
      && (Truthy(content) ==> |calls| >= 2 && calls[1] == AuditCall(content))
      && (Truthy(content) && auditor(content).None? ==> outcome == AuditFailed && |calls| == 2)
      && (Truthy(content) && auditor(content).Some? ==>
            var audit := auditor(content).value;
            && calls == calls[..2] + [SendCall(FindingsRequest(n.postFindingsUrl, n.taskId, audit, appConfig))]
            && outcome == Reported(SendAuditResults(n.postFindingsUrl, n.taskId, audit, appConfig, post)))
    ensures outcome == NothingFetched <==> !Truthy(FetchSolidityFiles(n.getContractsUrl, config, get))
  {
    calls := [FetchCall(ContractsRequest(n.getContractsUrl, config))];
    var solidityContent := FetchSolidityFiles(n.getContractsUrl, config, get);
    if !Truthy(solidityContent) {
      return NothingFetched, calls;
    }
    calls := calls + [AuditCall(solidityContent)];
    var audit := auditor(solidityContent);
    if audit.None? {
      return AuditFailed, calls;
    }
    calls := calls + [SendCall(FindingsRequest(n.postFindingsUrl, n.taskId, audit.value, appConfig))];
    var delivery := SendAuditResults(n.postFindingsUrl, n.taskId, audit.value, appConfig, post);
    return Reported(delivery), calls;
  }

  // ---------------------------------------------------------------------
  // The webhook endpoint

  /** A pending background task: `process_notification` with its arguments. */
  datatype BackgroundTask = ProcessNotificationTask(notification: Notification, config: Settings)

  /** FastAPI's background-task list; tasks run after the response is sent. */
  class BackgroundTasks {
    var tasks: seq<BackgroundTask>

    constructor()
      ensures tasks == []
    {
      tasks := [];
    }

    method AddTask(task: BackgroundTask)
      modifies this
      ensures tasks == old(tasks) + [task]
    {
      tasks := tasks + [task];
    }
  }

  /** The acknowledgement `{"status": "processing", "task_id": ...}`. */
  datatype Ack = Ack(status: string, taskId: string)

  /** The webhook endpoint.  Its secret-check dependency is commented out,
      so it takes no header and accepts every notification. */
  method Webhook(n: Notification, appConfig: Settings, background: BackgroundTasks) returns (ack: Ack)
    modifies background
    ensures background.tasks == old(background.tasks) + [ProcessNotificationTask(n, appConfig)]
    ensures ack == Ack("processing", n.taskId)
  {
    background.AddTask(ProcessNotificationTask(n, appConfig));
    ack := Ack("processing", n.taskId);
  }
}
