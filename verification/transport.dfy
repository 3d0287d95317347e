/**
 * The transport client: the HTTP requests the studio sends to the remix
 * backend and the rules by which it reads the replies. The network itself is
 * abstract: each operation takes the reply it received (or the failure of the
 * call) as a parameter and yields the request it sent and the outcome it
 * resolves or rejects with.
 */
module Transport {

  datatype Option<T> = None | Some(value: T)

  /** `API_BASE_URL`, the backend every client defaults to. */
  const ApiBaseUrl: string := "https://remix-backend-rg80.onrender.com"

  const HealthPath: string := "/health"
  const UploadPath: string := "/api/upload-audio"
  const ProcessPath: string := "/api/process-audio"
  const StatusPath: string := "/api/status/"
  const ResultPath: string := "/api/result/"
  const AudioPath: string := "/api/audio/"

  const UploadFallback: string := "Upload failed"
  const ProcessFallback: string := "Processing failed"
  const StatusFallback: string := "Failed to get status"
  const DownloadFallback: string := "Download failed"
  const UploadNetworkError: string := "Network error during upload"

  /** An `ApiClient` holds nothing but its base URL, fixed at construction. */
  datatype ApiClient = ApiClient(baseUrl: string)

  /** The shared `apiClient`, built with the default base URL. */
  function DefaultClient(): ApiClient
  {
    ApiClient(ApiBaseUrl)
  }

  // ---------------------------------------------------------------------------
  // Data exchanged with the backend
  // ---------------------------------------------------------------------------

  /** A local file the user picked; its bytes are opaque here. */
  datatype LocalFile = LocalFile(name: string, size: nat, content: seq<bv8>)

  datatype UploadResponse = UploadResponse(fileId: string, originalFilename: string, fileSize: int, message: string)

  datatype ProcessResponse = ProcessResponse(jobId: string, status: string, message: string)

  datatype JobPhase = Starting | Analyzing | Processing | Applying | Completed | Failed

  datatype JobStatus = JobStatus(
    jobId: string, status: JobPhase, progress: int, message: string, fileId: string, prompt: string,
    createdAt: int, resultFile: Option<string>, error: Option<string>, elapsedTime: Option<int>)

  datatype HttpMethod = Get | Post

  datatype Body =
    | NoBody
    | FormFile(field: string, file: LocalFile)      // multipart form with one file field
    | ProcessJson(fileId: string, prompt: string)   // JSON `{file_id, prompt}`

  datatype Request = Request(verb: HttpMethod, url: string, body: Body)

  /**
   * What fetch() gave back: either it failed (no response), or a response with
   * its status, the `error` field of the body when it is a string (read on a
   * non-ok status), and the decoded success payload.
   */
  datatype Reply<T> = NetworkFailure | Answered(status: int, errorField: Option<string>, payload: T)

  /** Why an operation rejected: fetch's own rejection, or an Error thrown with a message. */
  datatype ApiError = FetchRejected | Thrown(message: string)

  datatype Result<T> = Success(value: T) | Failure(error: ApiError)

  /** The request an operation sends together with the outcome of its promise. */
  datatype Exchange<T> = Exchange(request: Request, outcome: Result<T>)

  // ---------------------------------------------------------------------------
  // URLs
  // ---------------------------------------------------------------------------

  /** A resource URL: the base, a fixed path, then the resource name. */
  function Endpoint(c: ApiClient, path: string, resource: string): string
  {
    c.baseUrl + path + resource
  }

  /** The resource named by a URL under base + path, if the URL lies under it. */
  function ResourceOf(c: ApiClient, path: string, url: string): (r: Option<string>)
    ensures r.Some? ==> |r.value| <= |url|
  {
    var prefix := c.baseUrl + path;
    if |prefix| <= |url| && url[..|prefix|] == prefix then Some(url[|prefix|..]) else None
  }

  lemma ResourceOfEndpoint(c: ApiClient, path: string, resource: string)
    ensures ResourceOf(c, path, Endpoint(c, path, resource)) == Some(resource)
  {
    var prefix := c.baseUrl + path;
    var url := Endpoint(c, path, resource);
    assert url == prefix + resource;
    assert url[..|prefix|] == prefix && url[|prefix|..] == resource;
  }

  /** getDownloadUrl(jobId): the job id can be read back from the URL. */
  function GetDownloadUrl(c: ApiClient, jobId: string): (url: string)
    ensures ResourceOf(c, ResultPath, url) == Some(jobId)
  {
    ResourceOfEndpoint(c, ResultPath, jobId);
    Endpoint(c, ResultPath, jobId)
  }

  /** getAudioUrl(filename): the file name can be read back from the URL. */
  function GetAudioUrl(c: ApiClient, filename: string): (url: string)
    ensures ResourceOf(c, AudioPath, url) == Some(filename)
  {
    ResourceOfEndpoint(c, AudioPath, filename);
    Endpoint(c, AudioPath, filename)
  }

  /** Distinct file names give distinct audio URLs for one client. */
  lemma GetAudioUrlInjective(c: ApiClient, f: string, g: string)
    requires GetAudioUrl(c, f) == GetAudioUrl(c, g)
    ensures f == g
  {
    assert Some(f) == ResourceOf(c, AudioPath, GetAudioUrl(c, f));
  }

  /** Distinct job ids give distinct download URLs for one client. */
  lemma GetDownloadUrlInjective(c: ApiClient, j: string, k: string)
    requires GetDownloadUrl(c, j) == GetDownloadUrl(c, k)
    ensures j == k
  {
    assert Some(j) == ResourceOf(c, ResultPath, GetDownloadUrl(c, j));
  }

  // ---------------------------------------------------------------------------
  // Reading replies
  // ---------------------------------------------------------------------------

  /** `response.ok`: a status in the range 200 to 299. */
  predicate IsOk(status: int)
  {
    200 <= status <= 299
  }

  /** A JavaScript truthiness test on the `error` field: present and non-empty. */
  predicate Truthy(field: Option<string>)
  {
    field.Some? && field.value != ""
  }

  /** `errorData.error || fallback`. */
  function ErrorMessage(field: Option<string>, fallback: string): (m: string)
    ensures Truthy(field) ==> m == field.value
    ensures !Truthy(field) ==> m == fallback
    ensures fallback != "" ==> m != ""
  {
    if Truthy(field) then field.value else fallback
  }

  /** The common reply rule of the fetch-based operations: ok yields the payload, otherwise throw. */
  function CheckReply<T>(reply: Reply<T>, fallback: string): (r: Result<T>)
    ensures reply.NetworkFailure? ==> r == Failure(FetchRejected)
    ensures reply.Answered? ==> (r.Success? <==> IsOk(reply.status))
    ensures r.Success? ==> r.value == reply.payload
    ensures reply.Answered? && !IsOk(reply.status) ==>
      r == Failure(Thrown(if Truthy(reply.errorField) then reply.errorField.value else fallback))
  {
    match reply
    case NetworkFailure => Failure(FetchRejected)
    case Answered(status, field, payload) =>
      if IsOk(status) then Success(payload) else Failure(Thrown(ErrorMessage(field, fallback)))
  }

  // ---------------------------------------------------------------------------
  // Operations of ApiClient
  // ---------------------------------------------------------------------------

  /** What the health check receives: nothing, an undecodable body, or a body with an optional `status`. */
  datatype HealthReply = Unreachable | Undecodable | Decoded(httpStatus: int, status: Option<string>)

  datatype HealthProbe = HealthProbe(request: Request, healthy: bool)

  /** healthCheck(): true exactly for a decoded body whose `status` is "healthy"; never rejects. */
  function HealthCheck(c: ApiClient, reply: HealthReply): (p: HealthProbe)
    ensures p.request == Request(Get, c.baseUrl + HealthPath, NoBody)
    ensures p.healthy <==> reply.Decoded? && reply.status == Some("healthy")
  {
    var healthy := match reply
      case Decoded(_, status) => status == Some("healthy")
      case _ => false;
    HealthProbe(Request(Get, c.baseUrl + HealthPath, NoBody), healthy)
  }

  /** uploadAudio(file): posts the file under the form field "file". */
  function UploadAudio(c: ApiClient, file: LocalFile, reply: Reply<UploadResponse>): (x: Exchange<UploadResponse>)
    ensures x.request.verb == Post && x.request.url == c.baseUrl + UploadPath
    ensures x.request.body.FormFile? && x.request.body.field == "file" && x.request.body.file == file
    ensures x.outcome == CheckReply(reply, UploadFallback)
  {
    Exchange(Request(Post, c.baseUrl + "/api/upload-audio", FormFile("file", file)), CheckReply(reply, "Upload failed"))
  }

  /** processAudio(fileId, prompt): posts a JSON body carrying exactly the two arguments. */
  function ProcessAudio(c: ApiClient, fileId: string, prompt: string, reply: Reply<ProcessResponse>): (x: Exchange<ProcessResponse>)
    ensures x.request.verb == Post && x.request.url == c.baseUrl + ProcessPath
    ensures x.request.body.ProcessJson? && x.request.body.fileId == fileId && x.request.body.prompt == prompt
    ensures x.outcome == CheckReply(reply, ProcessFallback)
  {
    Exchange(Request(Post, c.baseUrl + "/api/process-audio", ProcessJson(fileId, prompt)), CheckReply(reply, "Processing failed"))
  }

  /** getJobStatus(jobId): gets the status URL of the job; the job id can be read back from it. */
  function GetJobStatus(c: ApiClient, jobId: string, reply: Reply<JobStatus>): (x: Exchange<JobStatus>)
    ensures x.request.verb == Get && x.request.body == NoBody
    ensures ResourceOf(c, StatusPath, x.request.url) == Some(jobId)
    ensures x.outcome == CheckReply(reply, StatusFallback)
  {
    ResourceOfEndpoint(c, StatusPath, jobId);
    Exchange(Request(Get, c.baseUrl + "/api/status/" + jobId, NoBody), CheckReply(reply, "Failed to get status"))
  }

  /** downloadResult(jobId): fetches exactly the URL getDownloadUrl gives for the job. */
  function DownloadResult(c: ApiClient, jobId: string, reply: Reply<seq<bv8>>): (x: Exchange<seq<bv8>>)
    ensures x.request == Request(Get, GetDownloadUrl(c, jobId), NoBody)
    ensures x.outcome == CheckReply(reply, DownloadFallback)
  {
    Exchange(Request(Get, c.baseUrl + "/api/result/" + jobId, NoBody), CheckReply(reply, "Download failed"))
  }

  /**
   * A rejected reply's message is the body's `error` when that is truthy, and
   * otherwise the operation's own fallback; a successful reply yields the payload.
   */
  lemma RejectionMessages(c: ApiClient, file: LocalFile, fileId: string, prompt: string, jobId: string,
                          status: int, field: Option<string>,
                          up: UploadResponse, pr: ProcessResponse, js: JobStatus, blob: seq<bv8>)
    requires !IsOk(status)
    ensures UploadAudio(c, file, Answered(status, field, up)).outcome
         == Failure(Thrown(if Truthy(field) then field.value else "Upload failed"))
    ensures ProcessAudio(c, fileId, prompt, Answered(status, field, pr)).outcome
         == Failure(Thrown(if Truthy(field) then field.value else "Processing failed"))
    ensures GetJobStatus(c, jobId, Answered(status, field, js)).outcome
         == Failure(Thrown(if Truthy(field) then field.value else "Failed to get status"))
    ensures DownloadResult(c, jobId, Answered(status, field, blob)).outcome
         == Failure(Thrown(if Truthy(field) then field.value else "Download failed"))
  {
  }

  // ---------------------------------------------------------------------------
  // uploadWithProgress
  // ---------------------------------------------------------------------------

  /**
   * `Math.round(loaded / total * 100)` over integers: the nearest integer to
   * 100 * loaded / total, halves rounded up (as Math.round does for
   * non-negative values). An integer stand-in for the floating-point formula.
   */
  function RoundedPercentage(loaded: nat, total: nat): (p: nat)
    requires total > 0
    ensures 2 * total * p <= 200 * loaded + total < 2 * total * (p + 1)
  {
    var a, d := 200 * loaded + total, 2 * total;
    var q := a / d;
    assert a == d * q + a % d;
    assert d * (q + 1) == d * q + d;
    q
  }

  lemma MulLeft(k: int, x: int, y: int)
    requires k >= 0 && x <= y
    ensures k * x <= k * y
  {
    assert k * y - k * x == k * (y - x);
  }

  /** No more than everything has been sent: the percentage is at most 100. */
  lemma PercentageAtMostHundred(loaded: nat, total: nat)
    requires 0 < total && loaded <= total
    ensures RoundedPercentage(loaded, total) <= 100
  {
    var p := RoundedPercentage(loaded, total);
    if p >= 101 {
      MulLeft(2 * total, 101, p);
      MulLeft(200, loaded, total);
      assert false;
    }
  }

  /** Everything sent reads as exactly 100. */
  lemma PercentageOfWhole(total: nat)
    requires 0 < total
    ensures RoundedPercentage(total, total) == 100
  {
    var p := RoundedPercentage(total, total);
    PercentageAtMostHundred(total, total);
    if p <= 99 {
      MulLeft(2 * total, p + 1, 100);
      assert false;
    }
  }

  lemma PercentageFacts(loaded: nat, total: nat)
    ensures 0 < total && loaded <= total ==> RoundedPercentage(loaded, total) <= 100
    ensures 0 < total && loaded == total ==> RoundedPercentage(loaded, total) == 100
  {
    if 0 < total && loaded <= total {
      PercentageAtMostHundred(loaded, total);
    }
    if 0 < total && loaded == total {
      PercentageOfWhole(total);
    }
  }

  /** More bytes sent never reads as a smaller percentage. */
  lemma PercentageMonotone(l1: nat, l2: nat, total: nat)
    requires 0 < total && l1 <= l2
    ensures RoundedPercentage(l1, total) <= RoundedPercentage(l2, total)
  {
    var p1, p2 := RoundedPercentage(l1, total), RoundedPercentage(l2, total);
    if p1 > p2 {
      MulLeft(2 * total, p2 + 1, p1);
      MulLeft(200, l1, l2);
      assert false;
    }
  }

  /** An XHR `progress` event. */
  datatype ProgressEvent = ProgressEvent(lengthComputable: bool, loaded: nat, total: nat)

  /** The object handed to `onProgress`; the percentage is None where JavaScript computes NaN or Infinity. */
  datatype UploadProgress = UploadProgress(loaded: nat, total: nat, percentage: Option<nat>)

  /** The progress listener: reports only when the length is computable and a callback was given. */
  function ProgressReport(ev: ProgressEvent, hasCallback: bool): (r: Option<UploadProgress>)
    ensures r.Some? <==> ev.lengthComputable && hasCallback
    ensures r.Some? ==> r.value.loaded == ev.loaded && r.value.total == ev.total
    ensures r.Some? ==> (r.value.percentage.Some? <==> ev.total > 0)
    ensures r.Some? && ev.total > 0 ==> r.value.percentage == Some(RoundedPercentage(ev.loaded, ev.total))
    ensures r.Some? && ev.total > 0 && ev.loaded <= ev.total ==> r.value.percentage.value <= 100
    ensures r.Some? && ev.total > 0 && ev.loaded == ev.total ==> r.value.percentage == Some(100)
  {
    if ev.lengthComputable && hasCallback then
      var percentage := if ev.total > 0 then Some(RoundedPercentage(ev.loaded, ev.total)) else None;
      PercentageFacts(ev.loaded, ev.total);
      Some(UploadProgress(ev.loaded, ev.total, percentage))
    else None
  }

  /** The callbacks made for a sequence of progress events, in order. */
  function Reports(evs: seq<ProgressEvent>, hasCallback: bool): (r: seq<UploadProgress>)
    ensures !hasCallback ==> r == []
    ensures |r| <= |evs|
    ensures (forall i :: 0 <= i < |evs| ==> !evs[i].lengthComputable) ==> r == []
    ensures hasCallback && (forall i :: 0 <= i < |evs| ==> evs[i].lengthComputable) ==>
      |r| == |evs| && forall k :: 0 <= k < |r| ==> Some(r[k]) == ProgressReport(evs[k], true)
  {
    if evs == [] then []
    else
      var rest := Reports(evs[1..], hasCallback);
      assert forall i :: 0 <= i < |evs[1..]| ==> evs[1..][i] == evs[i + 1];
      (match ProgressReport(evs[0], hasCallback) case Some(p) => [p] case None => []) + rest
  }

  /** The events of one upload of a known length: lengths computable, one total, loaded non-decreasing. */
  predicate SteadyUpload(evs: seq<ProgressEvent>, total: nat)
  {
    && (forall i :: 0 <= i < |evs| ==> evs[i].lengthComputable && evs[i].total == total)
    && (forall i, j :: 0 <= i <= j < |evs| ==> evs[i].loaded <= evs[j].loaded)
  }

  /** For a steady upload every event is reported, with the event's own figures. */
  lemma {:induction false} SteadyReports(evs: seq<ProgressEvent>, total: nat)
    requires 0 < total && SteadyUpload(evs, total)
    ensures var r := Reports(evs, true);
      |r| == |evs| &&
      forall k :: 0 <= k < |r| ==>
        r[k] == UploadProgress(evs[k].loaded, total, Some(RoundedPercentage(evs[k].loaded, total)))
  {
    if evs != [] {
      assert SteadyUpload(evs[1..], total) by {
        forall i, j | 0 <= i <= j < |evs[1..]| ensures evs[1..][i].loaded <= evs[1..][j].loaded {
          assert evs[1..][i] == evs[i + 1] && evs[1..][j] == evs[j + 1];
        }
      }
      SteadyReports(evs[1..], total);
    }
  }

  /** The percentages reported for a steady upload never decrease, and end at 100 when all is sent. */
  lemma ProgressNonDecreasing(evs: seq<ProgressEvent>, total: nat)
    requires 0 < total && SteadyUpload(evs, total)
    ensures var r := Reports(evs, true);
      && (forall k :: 0 <= k < |r| ==> r[k].percentage.Some?)
      && (forall i, j :: 0 <= i <= j < |r| ==> r[i].percentage.value <= r[j].percentage.value)
      && (|evs| > 0 && evs[|evs| - 1].loaded == total ==> r[|r| - 1].percentage == Some(100))
  {
    SteadyReports(evs, total);
    var r := Reports(evs, true);
    forall i, j | 0 <= i <= j < |r| ensures r[i].percentage.value <= r[j].percentage.value {
      PercentageMonotone(evs[i].loaded, evs[j].loaded, total);
    }
    if |evs| > 0 && evs[|evs| - 1].loaded == total {
      PercentageOfWhole(total);
    }
  }

  /** Ten units sent in steps of three, seven and ten are reported as 30, 70 and 100. */
  lemma TenUnitScenario(unit: nat)
    requires unit > 0
    ensures var evs := [ProgressEvent(true, 3 * unit, 10 * unit), ProgressEvent(true, 7 * unit, 10 * unit),
                        ProgressEvent(true, 10 * unit, 10 * unit)];
      var r := Reports(evs, true);
      |r| == 3 && r[0].percentage == Some(30) && r[1].percentage == Some(70) && r[2].percentage == Some(100)
  {
    var t := 10 * unit;
    var evs := [ProgressEvent(true, 3 * unit, t), ProgressEvent(true, 7 * unit, t), ProgressEvent(true, t, t)];
    SteadyReports(evs, t);
    Hundredths(3, unit);
    Hundredths(7, unit);
    PercentageOfWhole(t);
  }

  /** k tenths of the whole read as 10 * k percent. */
  lemma Hundredths(k: nat, unit: nat)
    requires 0 < unit && k <= 10
    ensures RoundedPercentage(k * unit, 10 * unit) == 10 * k
  {
    var p := RoundedPercentage(k * unit, 10 * unit);
    var d := 20 * unit;
    assert 200 * (k * unit) + 10 * unit == d * (10 * k) + 10 * unit;
    if p < 10 * k {
      MulLeft(d, p + 1, 10 * k);
      assert false;
    }
    if p > 10 * k {
      MulLeft(d, 10 * k + 1, p);
      assert false;
    }
  }

  /** How the XHR upload ended: a `load` event with its status and body, or an `error` event. */
  datatype XhrOutcome = Load(status: int, errorField: Option<string>, payload: UploadResponse) | TransportError

  /** The `load` and `error` listeners of uploadWithProgress. */
  function UploadWithProgress(ev: XhrOutcome): (r: Result<UploadResponse>)
    ensures ev.Load? ==> (r.Success? <==> 200 <= ev.status < 300)
    ensures r.Success? ==> ev.Load? && r.value == ev.payload
    ensures ev.Load? && !(200 <= ev.status < 300) ==> r == Failure(Thrown(ErrorMessage(ev.errorField, UploadFallback)))
    ensures ev.TransportError? ==> r == Failure(Thrown(UploadNetworkError))
  {
    match ev
    case Load(status, field, payload) =>
      if status >= 200 && status < 300 then Success(payload)
      else Failure(Thrown(ErrorMessage(field, "Upload failed")))
    case TransportError => Failure(Thrown("Network error during upload"))
  }

  /** The request uploadWithProgress opens: always against `API_BASE_URL`. */
  function UploadWithProgressRequest(file: LocalFile): (req: Request)
    ensures req == UploadAudio(DefaultClient(), file, NetworkFailure).request
  {
    Request(Post, ApiBaseUrl + "/api/upload-audio", FormFile("file", file))
  }

  /** The XHR upload targets the default backend, whatever base URL a client was built with. */
  lemma UploadWithProgressIgnoresClient(c: ApiClient, file: LocalFile, reply: Reply<UploadResponse>)
    requires c.baseUrl != ApiBaseUrl
    ensures UploadWithProgressRequest(file).url != UploadAudio(c, file, reply).request.url
  {
    var u, v := ApiBaseUrl + UploadPath, c.baseUrl + UploadPath;
    if |c.baseUrl| == |ApiBaseUrl| {
      assert u[..|ApiBaseUrl|] == ApiBaseUrl;
      assert v[..|ApiBaseUrl|] == c.baseUrl;
    }
  }

  /** Given the same status and body, the XHR upload and uploadAudio resolve or reject alike. */
  lemma UploadPathsAgree(c: ApiClient, file: LocalFile, status: int, field: Option<string>, payload: UploadResponse)
    ensures UploadAudio(c, file, Answered(status, field, payload)).outcome
         == UploadWithProgress(Load(status, field, payload))
  {
  }
}
