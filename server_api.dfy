/**
 * The kiosk's client for the remote service (app/server_api.py):
 * `fetch_print_job` posts the customer's code, classifies the answer into
 * the three failure kinds the request handler distinguishes, downloads the
 * document and returns the job's print settings.
 *
 * Both HTTP exchanges are inputs: the answer to the code POST (with its
 * decoded JSON body) and the answer to the file GET.
 */
module ServerApi {
  import opened Common

  /** The service's API root; SERVER_URL is its "/kiosk" resource. */
  const ApiRoot: string := "https://api.paynprint.com/api"
  const ServerUrl: string := ApiRoot + "/kiosk"

  /** KIOSK_ID: the environment variable, "UNKNOWN" when it is not set. */
  function KioskId(env: Option<string>): (id: string)
    ensures env.None? ==> id == "UNKNOWN"
    ensures env.Some? ==> id == env.value
  {
    match env
    case None => "UNKNOWN"
    case Some(v) => v
  }

  /** The endpoint the code is posted to. */
  function ProcessCodeUrl(kioskId: string): string
  {
    ServerUrl + "/" + kioskId + "/process-code"
  }

  /** The endpoint the document is downloaded from. */
  function FileUrl(fileId: string): string
  {
    ServerUrl + "/file/" + fileId
  }

  /** A request fetch_print_job makes: the code POST with its JSON fields, or the file GET. */
  datatype Request = PostCode(url: string, code: string, kioskId: string) | GetFile(url: string)

  /**
   * The requests fetch_print_job makes, in order: always the code POST;
   * the file GET only once the POST answered 200 with a file id.
   */
  function FetchRequests(code: string, kioskId: string, post: PostReply): (reqs: seq<Request>)
    ensures 1 <= |reqs| <= 2 && reqs[0] == PostCode(ProcessCodeUrl(kioskId), code, kioskId)
  {
    var first := PostCode(ProcessCodeUrl(kioskId), code, kioskId);
    if post.Answered? && post.status == 200 && post.body.Some? && post.body.value.fileId.Some?
    then [first, GetFile(FileUrl(post.body.value.fileId.value))]
    else [first]
  }

  /** The exceptions fetch_print_job lets out. */
  datatype FetchError =
    | UpstreamFailure(reason: string)
    /** InvalidCode("INVALID_CODE") */
    | InvalidCodeError
    /** Anything else: a body that is not the expected JSON (KeyError, decode error). */
    | Unexpected

  /** data["data"]["job"]; a missing key is None. */
  datatype JobRecord = JobRecord(id: Option<Value>, colorMode: Option<Value>, duplex: Option<Value>, copies: Option<Value>)

  /** data["data"] of the process-code answer; a missing key is None. */
  datatype Body = Body(fileId: Option<string>, job: Option<JobRecord>)

  /** The answer to the code POST: a transport error, or a status and a body (None when not JSON). */
  datatype PostReply = PostFailed | Answered(status: int, body: Option<Body>)

  /** The dictionary fetch_print_job returns. */
  datatype FetchedJob = FetchedJob(filePath: string, jobId: Value, colorMode: Value, duplex: Value, copies: Value, orientation: string)

  /**
   * fetch_print_job: classify the POST answer (transport error, 404/400,
   * other non-200), read the file id, download the file (any failure or
   * non-2xx status is a download failure), store it at `tmpName`, then
   * read the job record.
   */
  function FetchPrintJob(post: PostReply, file: HttpReply, tmpName: string): (r: Result<FetchedJob, FetchError>)
    ensures r == Err(UpstreamFailure("SERVER_UNREACHABLE")) <==> post.PostFailed?
    ensures r == Err(InvalidCodeError) <==> post.Answered? && (post.status == 404 || post.status == 400)
    ensures r == Err(UpstreamFailure("BAD_SERVER_RESPONSE")) <==>
      post.Answered? && post.status != 200 && post.status != 404 && post.status != 400
    ensures r == Err(UpstreamFailure("FILE_DOWNLOAD_FAILED")) <==>
      && post.Answered? && post.status == 200 && post.body.Some? && post.body.value.fileId.Some?
      && !(file.Reply? && 200 <= file.status < 300)
    ensures r.Ok? ==>
      && post.Answered? && post.status == 200 && post.body.Some?
      && file.Reply? && 200 <= file.status < 300
      && post.body.value.job.Some?
      && var job := post.body.value.job.value;
      && job.id.Some? && job.colorMode.Some? && job.duplex.Some? && job.copies.Some?
      && r.value == FetchedJob(tmpName, job.id.value, job.colorMode.value, job.duplex.value, job.copies.value, "")
  {
    match post
    case PostFailed => Err(UpstreamFailure("SERVER_UNREACHABLE"))
    case Answered(status, body) =>
      if status == 404 || status == 400 then Err(InvalidCodeError)
      else if status != 200 then Err(UpstreamFailure("BAD_SERVER_RESPONSE"))
      else if body.None? || body.value.fileId.None? then Err(Unexpected)
      else if !(file.Reply? && 200 <= file.status < 300) then Err(UpstreamFailure("FILE_DOWNLOAD_FAILED"))
      else
        match body.value.job
        case None => Err(Unexpected)
        case Some(job) =>
          if job.id.None? || job.colorMode.None? || job.duplex.None? || job.copies.None? then Err(Unexpected)
          else Ok(FetchedJob(tmpName, job.id.value, job.colorMode.value, job.duplex.value, job.copies.value, ""))
  }

  /**
   * The requests agree with the outcome: a job is returned, or its download
   * reported failed, only after a GET of the file the service named; a
   * rejected code or an error status is answered without any download.
   */
  lemma FetchRequestsAgree(code: string, kioskId: string, post: PostReply, file: HttpReply, tmpName: string)
    ensures var reqs := FetchRequests(code, kioskId, post); var r := FetchPrintJob(post, file, tmpName);
      && ((r.Ok? || r == Err(UpstreamFailure("FILE_DOWNLOAD_FAILED"))) ==>
            |reqs| == 2 && reqs[1] == GetFile(FileUrl(post.body.value.fileId.value)))
      && ((r == Err(InvalidCodeError) || r == Err(UpstreamFailure("SERVER_UNREACHABLE")) ||
           r == Err(UpstreamFailure("BAD_SERVER_RESPONSE"))) ==> |reqs| == 1)
  {
  }
}
