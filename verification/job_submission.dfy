/** Starting a job application (`apply_job`) and naming the downloaded
    resume (`download_resume`).  The request body, the `STEEL_API_KEY`
    environment variable, the Steel client's construction and the fresh
    task id are inputs; the agent run in its background thread is not part
    of this model. */
module JobSubmission {
  import opened Wrappers
  import opened Text
  import opened Http
  import opened Seqs
  import opened JsonValues

  // ------------------------------------------------------------ apply_job

  const RequiredFields: seq<string> := ["job_url", "resume_url", "instructions", "profile"]

  /** The first required field the body lacks, in the order the handler
      checks them. */
  function MissingField(body: map<string, Json>): (r: Option<string>)
    ensures r.None? <==> forall i :: 0 <= i < |RequiredFields| ==> RequiredFields[i] in body
    ensures r.Some? ==> exists i :: 0 <= i < |RequiredFields| && r.value == RequiredFields[i] &&
                          r.value !in body &&
                          forall j :: 0 <= j < i ==> RequiredFields[j] in body
  {
    match FirstIndex(RequiredFields, name => name !in body)
    case None => None
    case Some(i) => Some(RequiredFields[i])
  }

  /** What the background agent is started with. */
  datatype AgentJob = AgentJob(link: Json, instructions: Json, headless: Json, maxSteps: Json,
                               resumeUrl: Json, profile: Json)

  /** The body fields with the handler's defaults for the optional ones. */
  function JobOf(body: map<string, Json>): (j: AgentJob)
    requires MissingField(body).None?
    ensures j.link == body["job_url"] && j.resumeUrl == body["resume_url"]
    ensures j.instructions == body["instructions"] && j.profile == body["profile"]
    ensures j.headless == (if "headless" in body then body["headless"] else JBool(false))
    ensures j.maxSteps == (if "max_steps" in body then body["max_steps"] else JNum(100))
  {
    AgentJob(body["job_url"], body["instructions"],
             if "headless" in body then body["headless"] else JBool(false),
             if "max_steps" in body then body["max_steps"] else JNum(100),
             body["resume_url"], body["profile"])
  }

  const LocalCdpUrl := "http://localhost:9222"
  const ViewerBase := "http://localhost:3001"

  /** The JSON answer of a started application. */
  datatype Started = Started(taskId: string, liveUrl: string, fallbackUrl: string, replayUrl: string, job: AgentJob)

  /** An `active_sessions` entry. */
  datatype SessionInfo = SessionInfo(cdpUrl: string, status: string)

  /** The answer `apply_job` gives.  `body` is None when the request carries
      no JSON, and then the membership test raises and the handler answers
      500. */
  function ApplyAnswer(body: Option<map<string, Json>>, steelKey: Option<string>,
                       steelError: Option<string>, taskId: string): (r: Response<Started>)
    ensures body.None? ==> r.Error? && r.code == ServerError
    ensures body.Some? && MissingField(body.value).Some? ==>
              r == Error(BadRequest, "Missing required field: " + MissingField(body.value).value)
    ensures r.Ok? <==> body.Some? && MissingField(body.value).None? &&
                       steelKey.Some? && steelKey.value != "" && steelError.None?
    ensures r.Ok? ==> r.body.taskId == taskId && r.body.job == JobOf(body.value) &&
                      r.body.liveUrl == ViewerBase + "/live-stream/" + taskId &&
                      r.body.fallbackUrl == ViewerBase + "/screencast/" + taskId &&
                      r.body.replayUrl == ViewerBase + "/replay/" + taskId
    ensures body.Some? && MissingField(body.value).None? && (steelKey.None? || steelKey.value == "") ==>
              r == Error(BadRequest, "STEEL_API_KEY environment variable is required")
  {
    match body
    case None => Error(ServerError, "argument of type 'NoneType' is not iterable")
    case Some(fields) =>
      match MissingField(fields)
      case Some(name) => Error(BadRequest, "Missing required field: " + name)
      case None =>
        if steelKey.None? || steelKey.value == "" then
          Error(BadRequest, "STEEL_API_KEY environment variable is required")
        else if steelError.Some? then
          Error(ServerError, "Failed to create Steel session: " + steelError.value)
        else
          Ok(Started(taskId, ViewerBase + "/live-stream/" + taskId, ViewerBase + "/screencast/" + taskId,
                     ViewerBase + "/replay/" + taskId, JobOf(fields)))
  }

  /** A request lacking a required field is refused whatever the
      environment, and names that field. */
  lemma MissingFieldIsRefusedFirst(body: map<string, Json>, k1: Option<string>, k2: Option<string>,
                                   e1: Option<string>, e2: Option<string>, t1: string, t2: string)
    requires MissingField(body).Some?
    ensures ApplyAnswer(Some(body), k1, e1, t1) == ApplyAnswer(Some(body), k2, e2, t2)
    ensures ApplyAnswer(Some(body), k1, e1, t1).code == BadRequest
  {
  }

  /** The server's session table. */
  class ApplyDesk {
    var activeSessions: map<string, SessionInfo>

    constructor()
      ensures activeSessions == map[]
    {
      activeSessions := map[];
    }

    /** `apply_job`: an entry `{cdp_url, 'starting'}` is recorded under the
        new task id exactly when the application is started. */
    method ApplyJob(body: Option<map<string, Json>>, steelKey: Option<string>,
                    steelError: Option<string>, taskId: string) returns (r: Response<Started>)
      modifies this
      ensures r == ApplyAnswer(body, steelKey, steelError, taskId)
      ensures r.Ok? ==> activeSessions == old(activeSessions)[taskId := SessionInfo(LocalCdpUrl, "starting")]
      ensures r.Error? ==> activeSessions == old(activeSessions)
    {
      r := ApplyAnswer(body, steelKey, steelError, taskId);
      if r.Ok? {
        activeSessions := activeSessions[taskId := SessionInfo(LocalCdpUrl, "starting")];
      }
    }
  }

  // ------------------------------------------------------------ download_resume

  /** The extension the downloaded resume is saved with: the URL's own when
      it ends, in any case, in `.pdf`, `.doc` or `.docx`, otherwise `.pdf`. */
  function ResumeExtension(url: string): (ext: string)
    ensures ext in {".pdf", ".doc", ".docx"}
    ensures ext == ".doc" <==> EndsWith(ToLower(url), ".doc")
    ensures ext == ".docx" <==> EndsWith(ToLower(url), ".docx")
    ensures EndsWith(ToLower(url), ext) || ext == ".pdf"
  {
    var lower := ToLower(url);
    if EndsWith(lower, ".pdf") then ".pdf"
    else if EndsWith(lower, ".doc") then ".doc"
    else if EndsWith(lower, ".docx") then ".docx"
    else ".pdf"
  }

  /** The saved file's name: the fresh id followed by the extension. */
  function ResumeFileName(fileId: string, url: string): (name: string)
    ensures EndsWith(name, ResumeExtension(url))
    ensures |fileId| <= |name| && name[..|fileId|] == fileId
  {
    assert (fileId + ResumeExtension(url))[|fileId|..] == ResumeExtension(url);
    fileId + ResumeExtension(url)
  }
}
