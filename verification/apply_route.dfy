/** The route that applies to a job through the hosted browser agent: it
    validates the request, insists on a profile with a name and an email,
    hands the agent the user's platform logins as secrets, and uploads the
    resume with a content type chosen from its file name.

    The schema's URL and e-mail checks are the predicates `isUrl` and
    `isEmail`; whether the agent's run (with its session, upload and task
    calls) completes is the input `automationOk`. */
module ApplyRoute {
  import opened Wrappers
  import opened Text
  import Http
  import ProfileStorage

  /** A platform login: an e-mail (GitHub: a user name) and a password. */
  datatype Login = Login(email: string, password: string)

  datatype Credentials = Credentials(linkedin: Option<Login>, google: Option<Login>, indeed: Option<Login>,
                                     glassdoor: Option<Login>, github: Option<Login>)

  datatype ResumeFile = ResumeFile(name: string, dataUrl: string)

  /** The profile in the request; the fields only copied into the agent's
      prompt are left out. */
  datatype Profile = Profile(firstName: string, lastName: string, email: string,
                             resumeFile: Option<ResumeFile>, credentials: Option<Credentials>)

  datatype ApplyRequest = ApplyRequest(jobUrl: string, jobTitle: Option<string>, company: Option<string>,
                                       profile: Option<Profile>, notes: Option<string>)

  /** The request schema, as far as it constrains these fields. */
  predicate SchemaValid(r: ApplyRequest, isUrl: string -> bool, isEmail: string -> bool) {
    isUrl(r.jobUrl)
    && (r.jobTitle.Some? ==> |r.jobTitle.value| >= 1)
    && (r.company.Some? ==> |r.company.value| >= 1)
    && (r.profile.Some? ==>
          |r.profile.value.firstName| >= 1 && |r.profile.value.lastName| >= 1 && isEmail(r.profile.value.email))
  }

  // ------------------------------------------------------------ profile

  /** The required fields that are empty or white space only, in the order
      first name, last name, email. */
  function MissingFields(p: Profile): (r: seq<string>)
    ensures "firstName" in r <==> IsBlank(p.firstName)
    ensures "lastName" in r <==> IsBlank(p.lastName)
    ensures "email" in r <==> IsBlank(p.email)
    ensures r == [] <==> !IsBlank(p.firstName) && !IsBlank(p.lastName) && !IsBlank(p.email)
    ensures |r| <= 3
  {
    TrimEmptyIffBlank(p.firstName);
    TrimEmptyIffBlank(p.lastName);
    TrimEmptyIffBlank(p.email);
    (if p.firstName == "" || Trim(p.firstName) == "" then ["firstName"] else [])
    + (if p.lastName == "" || Trim(p.lastName) == "" then ["lastName"] else [])
    + (if p.email == "" || Trim(p.email) == "" then ["email"] else [])
  }

  /** The browser's completeness test and the route's agree: a stored
      profile is complete exactly when the route, given its name and email,
      finds no required field missing. */
  lemma StoredCompleteIffNothingMissing(store: ProfileStorage.ProfileStore, p: Profile)
    requires store.GetUserProfile().Some?
    requires var u := store.GetUserProfile().value;
             p.firstName == u.firstName && p.lastName == u.lastName && p.email == u.email
    ensures store.HasCompleteProfile() <==> MissingFields(p) == []
  {
  }

  /** The field names joined with ", ". */
  function JoinComma(parts: seq<string>): string {
    if |parts| == 0 then ""
    else if |parts| == 1 then parts[0]
    else parts[0] + ", " + JoinComma(parts[1..])
  }

  function IncompleteMessage(fields: seq<string>): string {
    "Please complete the following required fields in your profile: " + JoinComma(fields)
  }

  datatype ApplyResponse = Submitted | Refused(status: nat, error: string, message: string)

  const NoProfileMessage := "You need to complete your profile before applying to jobs. Please visit the Profile page to set up your information."

  /** `POST /api/apply`: a request the schema refuses, one without a
      profile, and one whose profile misses a required field are refused
      with 400 in that order of checks; otherwise the agent runs, and a
      failure of the run is a 500. */
  function Apply(r: ApplyRequest, isUrl: string -> bool, isEmail: string -> bool, automationOk: bool)
    : (resp: ApplyResponse)
    ensures !SchemaValid(r, isUrl, isEmail) ==> resp.Refused? && resp.status == Http.BadRequest && resp.error == "Invalid request data"
    ensures SchemaValid(r, isUrl, isEmail) && r.profile.None? ==>
              resp == Refused(Http.BadRequest, "Profile required", NoProfileMessage)
    ensures SchemaValid(r, isUrl, isEmail) && r.profile.Some? && MissingFields(r.profile.value) != [] ==>
              resp == Refused(Http.BadRequest, "Incomplete profile",
                              IncompleteMessage(MissingFields(r.profile.value)))
    ensures resp.Submitted? <==>
              SchemaValid(r, isUrl, isEmail) && r.profile.Some? && MissingFields(r.profile.value) == [] && automationOk
    ensures resp.Refused? && resp.status == Http.ServerError ==> resp.error == "Application failed"
  {
    if !SchemaValid(r, isUrl, isEmail) then Refused(Http.BadRequest, "Invalid request data", "")
    else if r.profile.None? then Refused(Http.BadRequest, "Profile required", NoProfileMessage)
    else if MissingFields(r.profile.value) != [] then
      Refused(Http.BadRequest, "Incomplete profile",
              IncompleteMessage(MissingFields(r.profile.value)))
    else if !automationOk then
      Refused(Http.ServerError, "Application failed", "There was an issue submitting your application. Please try applying manually.")
    else Submitted
  }

  /** The schema already demands non-empty names, so a request it accepts
      is refused as incomplete only for a name, or an email, made of white
      space; a submitted application had a profile with a name and an
      email. */
  lemma SubmittedHadCompleteProfile(r: ApplyRequest, isUrl: string -> bool, isEmail: string -> bool, automationOk: bool)
    ensures Apply(r, isUrl, isEmail, automationOk).Submitted? ==>
              r.profile.Some? && !IsBlank(r.profile.value.firstName) && !IsBlank(r.profile.value.lastName)
              && !IsBlank(r.profile.value.email)
    ensures SchemaValid(r, isUrl, isEmail) && r.profile.Some? && "firstName" in MissingFields(r.profile.value) ==>
              r.profile.value.firstName != "" && IsBlank(r.profile.value.firstName)
  {
  }

  // ------------------------------------------------------------ secrets

  /** A login the agent gets: both its e-mail and its password non-empty. */
  predicate Usable(login: Option<Login>) {
    login.Some? && login.value.email != "" && login.value.password != ""
  }

  /** The logins of the three job platforms, each keyed by its domain
      (the e-mail) and its sub-domains (the password). */
  method BuildSecrets(credentials: Option<Credentials>) returns (secrets: map<string, string>)
    ensures var c := credentials.GetOr(Credentials(None, None, None, None, None));
            ("https://linkedin.com" in secrets <==> Usable(c.linkedin))
            && ("https://*.linkedin.com" in secrets <==> Usable(c.linkedin))
            && ("https://indeed.com" in secrets <==> Usable(c.indeed))
            && ("https://*.indeed.com" in secrets <==> Usable(c.indeed))
            && ("https://glassdoor.com" in secrets <==> Usable(c.glassdoor))
            && ("https://*.glassdoor.com" in secrets <==> Usable(c.glassdoor))
            && (Usable(c.linkedin) ==> secrets["https://linkedin.com"] == c.linkedin.value.email
                                       && secrets["https://*.linkedin.com"] == c.linkedin.value.password)
            && (Usable(c.indeed) ==> secrets["https://indeed.com"] == c.indeed.value.email
                                     && secrets["https://*.indeed.com"] == c.indeed.value.password)
            && (Usable(c.glassdoor) ==> secrets["https://glassdoor.com"] == c.glassdoor.value.email
                                        && secrets["https://*.glassdoor.com"] == c.glassdoor.value.password)
    ensures secrets.Keys <= PlatformKeys
    ensures var c := credentials.GetOr(Credentials(None, None, None, None, None));
            secrets == map[] <==> !Usable(c.linkedin) && !Usable(c.indeed) && !Usable(c.glassdoor)
  {
    secrets := map[];
    var c := credentials.GetOr(Credentials(None, None, None, None, None));
    if Usable(c.linkedin) {
      secrets := secrets["https://linkedin.com" := c.linkedin.value.email];
      secrets := secrets["https://*.linkedin.com" := c.linkedin.value.password];
    }
    if Usable(c.indeed) {
      secrets := secrets["https://indeed.com" := c.indeed.value.email];
      secrets := secrets["https://*.indeed.com" := c.indeed.value.password];
    }
    if Usable(c.glassdoor) {
      secrets := secrets["https://glassdoor.com" := c.glassdoor.value.email];
      secrets := secrets["https://*.glassdoor.com" := c.glassdoor.value.password];
    }
  }

  /** The only keys a secrets record can have: no Google or GitHub login
      is ever passed on. */
  const PlatformKeys: set<string> := {
    "https://linkedin.com", "https://*.linkedin.com",
    "https://indeed.com", "https://*.indeed.com",
    "https://glassdoor.com", "https://*.glassdoor.com"
  }

  /** What the task is created with: the record, or nothing when it is
      empty. */
  function TaskSecrets(secrets: map<string, string>): (r: Option<map<string, string>>)
    ensures r.None? <==> secrets == map[]
    ensures r.Some? ==> r.value == secrets
  {
    if |secrets.Keys| > 0 then Some(secrets) else None
  }

  // ------------------------------------------------------------ resume

  const PdfType := "application/pdf"
  const TextType := "text/plain"
  const DocxType := "application/vnd.openxmlformats-officedocument.wordprocessingml.document"

  /** The upload's content type, by the lower-cased file name's ending. */
  function ContentType(name: string): (t: string)
    ensures EndsWith(ToLower(name), ".pdf") ==> t == PdfType
    ensures !EndsWith(ToLower(name), ".pdf") && EndsWith(ToLower(name), ".txt") ==> t == TextType
    ensures !EndsWith(ToLower(name), ".pdf") && !EndsWith(ToLower(name), ".txt") ==> t == DocxType
  {
    var lower := ToLower(name);
    if EndsWith(lower, ".pdf") then PdfType
    else if EndsWith(lower, ".txt") then TextType
    else DocxType
  }

  /** The content type does not depend on the file name's letter case. */
  lemma ContentTypeIgnoresCase(name: string)
    ensures ContentType(name) == ContentType(ToLower(name))
  {
    ToLowerIdempotent(name);
  }

  datatype Upload = Upload(fileName: string, contentType: string, payload: string)

  /** The resume upload the route attempts: a file with a name and a data
      URL is uploaded as the data URL's data part, typed by its name; with
      no comma in the data URL the conversion throws and the route goes on
      without a resume. */
  function ResumeUpload(profile: Profile): (u: Option<Upload>)
    ensures u.Some? <==> (profile.resumeFile.Some? && profile.resumeFile.value.name != ""
                          && profile.resumeFile.value.dataUrl != ""
                          && ProfileStorage.DataPart(profile.resumeFile.value.dataUrl).Some?)
    ensures u.Some? ==> u.value.fileName == profile.resumeFile.value.name
                        && u.value.contentType == ContentType(profile.resumeFile.value.name)
                        && ',' !in u.value.payload
  {
    match profile.resumeFile
    case None => None
    case Some(f) =>
      if f.dataUrl == "" || f.name == "" then None
      else
        match ProfileStorage.DataPart(f.dataUrl)
        case None => None
        case Some(payload) => Some(Upload(f.name, ContentType(f.name), payload))
  }
}
