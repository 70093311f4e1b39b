/** The sheet that submits an application for a saved job: it checks the
    user's profile, lists what is missing, allows submitting only when
    nothing critical is missing, and turns a refused submission into a
    message.

    The profile is the decoded JSON of `/api/profile` (`None` while it is
    loading or when the fetch failed); the reply to the submission is an
    input, as is the query string built from a local run's URLs. */
module ApplicationSheet {
  import opened Wrappers
  import opened Text
  import opened Seqs
  import opened JsonValues
  import Http

  /** The profile as the sheet reads it; every field may be missing. */
  datatype ProfileData = ProfileData(firstName: Option<Json>, lastName: Option<Json>, email: Option<Json>,
                                     phone: Option<Json>, location: Option<Json>, summary: Option<string>,
                                     skills: Option<seq<Json>>, experience: Option<Json>,
                                     education: Option<Json>, resumeUploaded: Option<Json>)

  /** `!!profile?.field`. */
  predicate Truthy(field: Option<Json>) { field.Some? && JsTruthy(field.value) }

  /** `Array.isArray(v) && v.length > 0`, after a truthiness test. */
  predicate NonEmptyArray(field: Option<Json>) { Truthy(field) && field.value.JArr? && |field.value.items| > 0 }

  datatype ProfileChecks = ProfileChecks(hasBasicInfo: bool, hasContactInfo: bool, hasLocation: bool,
                                         hasSummary: bool, hasSkills: bool, hasResume: bool,
                                         hasExperience: bool, hasEducation: bool)

  /** `profileChecks`: a summary of white space only, and empty lists,
      count as missing; without a profile everything is missing. */
  function Checks(profile: Option<ProfileData>): (c: ProfileChecks)
    ensures profile.None? ==> c == ProfileChecks(false, false, false, false, false, false, false, false)
    ensures profile.Some? ==>
              var p := profile.value;
              (c.hasBasicInfo <==> Truthy(p.firstName) && Truthy(p.lastName) && Truthy(p.email))
              && (c.hasContactInfo <==> Truthy(p.phone))
              && (c.hasLocation <==> Truthy(p.location))
              && (c.hasSummary <==> p.summary.Some? && !IsBlank(p.summary.value))
              && (c.hasSkills <==> p.skills.Some? && p.skills.value != [])
              && (c.hasExperience <==> p.experience.Some? && p.experience.value.JArr? && p.experience.value.items != [])
              && (c.hasEducation <==> p.education.Some? && p.education.value.JArr? && p.education.value.items != [])
              && (c.hasResume <==> Truthy(p.resumeUploaded))
  {
    match profile
    case None => ProfileChecks(false, false, false, false, false, false, false, false)
    case Some(p) =>
      TrimEmptyIffBlank(p.summary.GetOr(""));
      ProfileChecks(Truthy(p.firstName) && Truthy(p.lastName) && Truthy(p.email),
                    Truthy(p.phone),
                    Truthy(p.location),
                    p.summary.Some? && p.summary.value != "" && |Trim(p.summary.value)| > 0,
                    p.skills.Some? && |p.skills.value| > 0,
                    Truthy(p.resumeUploaded),
                    NonEmptyArray(p.experience),
                    NonEmptyArray(p.education))
  }

  const BasicInfoLabel := "Basic information (name and email)"
  const ResumeLabel := "Resume upload"

  /** The recommended items. */
  datatype Recommended = Phone | Location | Summary | Skills | Experience | Education

  /** The text the sheet shows for a missing recommended item. */
  function RecommendedLabel(item: Recommended): string {
    match item
    case Phone => "Phone number"
    case Location => "Location"
    case Summary => "Professional summary"
    case Skills => "Skills"
    case Experience => "Work experience"
    case Education => "Education"
  }

  /** The place of a recommended item in the order the sheet lists them. */
  function Rank(item: Recommended): (r: nat)
    ensures r < 6
  {
    match item
    case Phone => 0
    case Location => 1
    case Summary => 2
    case Skills => 3
    case Experience => 4
    case Education => 5
  }

  /** Whether a recommended item is missing. */
  predicate IsMissing(c: ProfileChecks, item: Recommended) {
    match item
    case Phone => !c.hasContactInfo
    case Location => !c.hasLocation
    case Summary => !c.hasSummary
    case Skills => !c.hasSkills
    case Experience => !c.hasExperience
    case Education => !c.hasEducation
  }

  /** The items of a list are in the sheet's order, each at most once. */
  predicate InOrder(items: seq<Recommended>) {
    forall i, j :: 0 <= i < j < |items| ==> Rank(items[i]) < Rank(items[j])
  }

  /** `items` holds the missing items ranked below `n`, in order. */
  predicate MissingBelow(c: ProfileChecks, items: seq<Recommended>, n: nat) {
    InOrder(items)
    && (forall i :: 0 <= i < |items| ==> Rank(items[i]) < n)
    && (forall item :: item in items <==> IsMissing(c, item) && Rank(item) < n)
  }

  /** One `if (!check) push(item)` of the sheet. */
  method PushIfMissing(c: ProfileChecks, items: seq<Recommended>, item: Recommended) returns (items': seq<Recommended>)
    requires MissingBelow(c, items, Rank(item))
    ensures MissingBelow(c, items', Rank(item) + 1)
  {
    items' := items;
    if IsMissing(c, item) {
      items' := items + [item];
    }
    forall x
      ensures x in items' <==> IsMissing(c, x) && Rank(x) < Rank(item) + 1
    {
      if Rank(x) == Rank(item) {
        RankIsInjective(x, item);
      }
    }
  }

  /** The two lists the sheet builds, by one conditional push per check:
      the critical items missing (basic information, then the resume) and
      the recommended ones missing, in their fixed order. */
  method MissingItems(c: ProfileChecks) returns (criticalMissing: seq<string>, recommendedMissing: seq<Recommended>)
    ensures BasicInfoLabel in criticalMissing <==> !c.hasBasicInfo
    ensures ResumeLabel in criticalMissing <==> !c.hasResume
    ensures criticalMissing == (if c.hasBasicInfo then [] else [BasicInfoLabel]) + (if c.hasResume then [] else [ResumeLabel])
    ensures forall item :: item in recommendedMissing <==> IsMissing(c, item)
    ensures InOrder(recommendedMissing)
  {
    criticalMissing := [];
    if !c.hasBasicInfo {
      criticalMissing := criticalMissing + [BasicInfoLabel];
    }
    if !c.hasResume {
      criticalMissing := criticalMissing + [ResumeLabel];
    }
    recommendedMissing := [];
    recommendedMissing := PushIfMissing(c, recommendedMissing, Phone);
    recommendedMissing := PushIfMissing(c, recommendedMissing, Location);
    recommendedMissing := PushIfMissing(c, recommendedMissing, Summary);
    recommendedMissing := PushIfMissing(c, recommendedMissing, Skills);
    recommendedMissing := PushIfMissing(c, recommendedMissing, Experience);
    recommendedMissing := PushIfMissing(c, recommendedMissing, Education);
  }

  /** A list in the sheet's order is determined by the items it holds: the
      recommended list is the only one the checks allow. */
  lemma {:induction false} InOrderIsUnique(a: seq<Recommended>, b: seq<Recommended>)
    requires InOrder(a) && InOrder(b)
    requires forall item :: item in a <==> item in b
    ensures a == b
    decreases |a|
  {
    SameItemsSameEmptiness(a, b);
    if |a| > 0 {
      assert a[0] == b[0] by {
        assert a[0] in b && b[0] in a;
        if Rank(a[0]) == Rank(b[0]) {
          RankIsInjective(a[0], b[0]);
        }
      }
      forall item
        ensures item in a[1..] <==> item in b[1..]
      {
        if item in a[1..] {
          var i :| 0 <= i < |a[1..]| && a[1..][i] == item;
          assert Rank(a[0]) < Rank(a[i + 1]) && a[i + 1] == item && item in b;
          var k :| 0 <= k < |b| && b[k] == item;
          assert k != 0;
          assert b[1..][k - 1] == item;
        }
        if item in b[1..] {
          var i :| 0 <= i < |b[1..]| && b[1..][i] == item;
          assert Rank(b[0]) < Rank(b[i + 1]) && b[i + 1] == item && item in a;
          var k :| 0 <= k < |a| && a[k] == item;
          assert k != 0;
          assert a[1..][k - 1] == item;
        }
      }
      InOrderIsUnique(a[1..], b[1..]);
    }
  }

  /** `hasAllRecommended`: the recommended list is empty exactly when every
      recommended check passes. */
  lemma AllRecommendedIffEveryCheck(c: ProfileChecks, recommendedMissing: seq<Recommended>)
    requires forall item :: item in recommendedMissing <==> IsMissing(c, item)
    ensures |recommendedMissing| == 0 <==>
              c.hasContactInfo && c.hasLocation && c.hasSummary && c.hasSkills && c.hasExperience && c.hasEducation
  {
    if |recommendedMissing| > 0 {
      assert IsMissing(c, recommendedMissing[0]);
    }
    if !c.hasContactInfo { assert Phone in recommendedMissing; }
    if !c.hasLocation { assert Location in recommendedMissing; }
    if !c.hasSummary { assert Summary in recommendedMissing; }
    if !c.hasSkills { assert Skills in recommendedMissing; }
    if !c.hasExperience { assert Experience in recommendedMissing; }
    if !c.hasEducation { assert Education in recommendedMissing; }
  }

  /** Lists with the same items are both empty or both not. */
  lemma SameItemsSameEmptiness(a: seq<Recommended>, b: seq<Recommended>)
    requires forall item :: item in a <==> item in b
    ensures |a| == 0 <==> |b| == 0
  {
    if |a| > 0 {
      assert a[0] in b;
    }
    if |b| > 0 {
      assert b[0] in a;
    }
  }

  lemma RankIsInjective(x: Recommended, y: Recommended)
    requires Rank(x) == Rank(y)
    ensures x == y
  {
  }

  /** `isProfileComplete` holds exactly when nothing critical is missing. */
  predicate IsProfileComplete(criticalMissing: seq<string>) { |criticalMissing| == 0 }

  /** The submit button is disabled while a submission runs or while
      something critical is missing. */
  predicate ApplyDisabled(applying: bool, criticalMissing: seq<string>) { applying || |criticalMissing| > 0 }

  /** The profile is complete exactly when it has basic information and a
      resume, and then the button is enabled unless a submission runs. */
  lemma CompleteIffBasicInfoAndResume(profile: Option<ProfileData>, criticalMissing: seq<string>)
    requires criticalMissing == (if Checks(profile).hasBasicInfo then [] else [BasicInfoLabel])
                                + (if Checks(profile).hasResume then [] else [ResumeLabel])
    ensures IsProfileComplete(criticalMissing) <==> Checks(profile).hasBasicInfo && Checks(profile).hasResume
    ensures ApplyDisabled(false, criticalMissing) <==> !Checks(profile).hasBasicInfo || !Checks(profile).hasResume
    ensures profile.None? ==> ApplyDisabled(false, criticalMissing)
  {
  }

  // ------------------------------------------------------------ submitting

  const AlreadyAppliedMessage := "You have already applied to this job"
  const NoServerMessage := "Unable to connect to local automation server. Please ensure the server is running and try again."
  const IncompleteProfileMessage := "Profile incomplete. Please update your profile with all required information."
  const NoResumeMessage := "Resume not found. Please upload your resume in your profile."
  const DefaultApplyMessage := "Failed to submit application. Please try again."

  /** The message thrown for a refused submission: conflict first, then a
      server error about the local server, then a bad request about the
      profile, then one about the resume; otherwise the server's own error
      or the default text. */
  function RefusalMessage(status: nat, error: Option<string>): (m: string)
    ensures status == Http.Conflict ==> m == AlreadyAppliedMessage
    ensures status == Http.ServerError && error.Some? && Contains(error.value, "local server") ==> m == NoServerMessage
    ensures (status == Http.BadRequest && error.Some? && Contains(error.value, "profile")) ==> m == IncompleteProfileMessage
    ensures (status == Http.BadRequest && error.Some? && !Contains(error.value, "profile")
             && Contains(error.value, "resume")) ==> m == NoResumeMessage
    ensures status != Http.Conflict
            && !(status == Http.ServerError && error.Some? && Contains(error.value, "local server"))
            && !(status == Http.BadRequest && error.Some? && (Contains(error.value, "profile") || Contains(error.value, "resume"))) ==>
              m == (if error.Some? && error.value != "" then error.value else DefaultApplyMessage)
  {
    if status == Http.Conflict then AlreadyAppliedMessage
    else if status == Http.ServerError && error.Some? && Contains(error.value, "local server") then NoServerMessage
    else if status == Http.BadRequest && error.Some? && Contains(error.value, "profile") then IncompleteProfileMessage
    else if status == Http.BadRequest && error.Some? && Contains(error.value, "resume") then NoResumeMessage
    else if error.Some? && error.value != "" then error.value
    else DefaultApplyMessage
  }

  /** The outcome of `/api/applications`: the application made (its id,
      and for a local run the query string of its URLs), a refusal, or the
      message of a thrown request. */
  datatype ApplyReply = Accepted(applicationId: string, localParams: string)
                      | Refused(status: nat, error: Option<string>)
                      | Threw(message: string)

  datatype ApplyOutcome = NoAction | Navigate(path: string) | ShowError(message: string)

  /** `handleApply`: nothing happens without a job id; a made application
      navigates to its page (by job id with the run's URLs for a local run,
      by application id otherwise); a failure shows its message. */
  function HandleApply(jobId: Option<string>, isLocal: bool, reply: ApplyReply): (o: ApplyOutcome)
    ensures (jobId.None? || jobId.value == "") <==> o.NoAction?
    ensures o.Navigate? <==> reply.Accepted? && jobId.Some? && jobId.value != ""
    ensures o.Navigate? && isLocal ==> o.path == "/application/" + jobId.value + "?" + reply.localParams
    ensures o.Navigate? && !isLocal ==> o.path == "/application/" + reply.applicationId
    ensures o.ShowError? && reply.Refused? ==> o.message == RefusalMessage(reply.status, reply.error)
    ensures o.ShowError? && reply.Threw? ==> o.message == reply.message
  {
    if jobId.None? || jobId.value == "" then NoAction
    else
      match reply
      case Accepted(applicationId, localParams) =>
        if isLocal then Navigate("/application/" + jobId.value + "?" + localParams)
        else Navigate("/application/" + applicationId)
      case Refused(status, error) => ShowError(RefusalMessage(status, error))
      case Threw(message) => ShowError(message)
  }

  /** A bad request mentioning both the profile and the resume is reported
      as an incomplete profile. */
  lemma ProfileBeforeResume(error: string)
    requires Contains(error, "profile") && Contains(error, "resume")
    ensures RefusalMessage(Http.BadRequest, Some(error)) == IncompleteProfileMessage
  {
  }
}
