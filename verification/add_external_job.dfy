/** The dialog that adds jobs found elsewhere: one job link at a time, or
    many, as pasted lines of text or as the cells of a CSV file.

    The URL check (a Zod `url()` schema) is the predicate `isUrl`. The
    request outcomes are inputs: whether each bulk request came back `ok`
    (a thrown request counts as not ok), and for a single link, the job
    the server extracted or the message of what was thrown. */
module AddExternalJob {
  import opened Wrappers
  import opened Text
  import opened Seqs

  datatype Toast = ErrorToast(title: string, description: Option<string>)
                 | SuccessToast(title: string, description: Option<string>)
                 | WarningToast(title: string)

  /** The JSON body posted for one job link. */
  datatype JobRequest = JobRequest(jobLink: string, mode: string)

  /** What the server extracted from a single job posting. */
  datatype JobData = JobData(title: string, company: string, location: Option<string>)

  const NoLinkMessage := "Please provide a job link"
  const InvalidUrlMessage := "Please enter a valid URL"
  const NoDataMessage := "Please provide job data or upload a CSV file"
  const NoUrlsMessage := "No valid job URLs found"
  const NoneAddedMessage := "Failed to add any jobs"
  const DefaultFailureMessage := "Failed to add job"

  // ------------------------------------------------------------ one link

  /** The checks of `handleIndividualSubmit`: a link that is blank is
      refused before the URL check; otherwise the trimmed link is sent. */
  function IndividualRequest(jobLink: string, isUrl: string -> bool): (r: Result<JobRequest, string>)
    ensures r == Failure(NoLinkMessage) <==> IsBlank(jobLink)
    ensures r == Failure(InvalidUrlMessage) <==> !IsBlank(jobLink) && !isUrl(Trim(jobLink))
    ensures r.Success? <==> !IsBlank(jobLink) && isUrl(Trim(jobLink))
    ensures r.Success? ==> r.value == JobRequest(Trim(jobLink), "individual")
  {
    TrimEmptyIffBlank(jobLink);
    if Trim(jobLink) == "" then Failure(NoLinkMessage)
    else if !isUrl(Trim(jobLink)) then Failure(InvalidUrlMessage)
    else Success(JobRequest(Trim(jobLink), "individual"))
  }

  /** The error toast for a failed single add: three known phrases get
      their own title and advice, tested in this order; any other message
      is shown as it is. */
  function FailureToast(message: string): (t: Toast)
    ensures t.ErrorToast?
    ensures t.description.None? <==>
              !Contains(message, "timeout") && !Contains(message, "extract valid job information")
              && !Contains(message, "already saved")
    ensures t.description.None? ==> t.title == message
    ensures Contains(message, "timeout") ==> t.title == "Request timed out"
    ensures (!Contains(message, "timeout") && Contains(message, "extract valid job information")) ==>
              t.title == "Could not analyze job posting"
    ensures (!Contains(message, "timeout") && !Contains(message, "extract valid job information")
             && Contains(message, "already saved")) ==> t.title == "Job already saved"
  {
    if Contains(message, "timeout") then
      ErrorToast("Request timed out", Some("The job analysis took too long. Please try again."))
    else if Contains(message, "extract valid job information") then
      ErrorToast("Could not analyze job posting", Some("Please check the URL and try again, or the page may require login."))
    else if Contains(message, "already saved") then
      ErrorToast("Job already saved", Some("This job is already in your saved jobs list."))
    else ErrorToast(message, None)
  }

  /** The outcome of a submission: the requests sent, the toasts shown, and
      whether the dialog closed (which also tells the page a job was
      added). */
  datatype Submission = Submission(requests: seq<JobRequest>, toasts: seq<Toast>, closed: bool)

  /** `handleIndividualSubmit`: a refused link sends nothing and shows the
      reason; otherwise one request is sent and the dialog closes exactly
      when it succeeds. `reply` is the extracted job, if the server sent
      one, or the message of what was thrown (`None` when it is not an
      `Error`). */
  function IndividualSubmit(jobLink: string, isUrl: string -> bool, reply: Result<Option<JobData>, Option<string>>)
    : (s: Submission)
    ensures IndividualRequest(jobLink, isUrl).Failure? ==>
              s == Submission([], [ErrorToast(IndividualRequest(jobLink, isUrl).error, None)], false)
    ensures IndividualRequest(jobLink, isUrl).Success? ==>
              s.requests == [JobRequest(Trim(jobLink), "individual")] && |s.toasts| == 1
              && (s.closed <==> reply.Success?)
              && (reply.Success? ==> s.toasts[0].SuccessToast?)
              && (reply.Failure? ==> s.toasts[0] == FailureToast(reply.error.GetOr(DefaultFailureMessage)))
  {
    match IndividualRequest(jobLink, isUrl)
    case Failure(e) => Submission([], [ErrorToast(e, None)], false)
    case Success(request) =>
      match reply
      case Success(Some(job)) =>
        var where := if job.location.Some? && job.location.value != "" then Some("Location: " + job.location.value) else None;
        Submission([request], [SuccessToast("Added \"" + job.title + "\" at " + job.company + "!", where)], true)
      case Success(None) => Submission([request], [SuccessToast("Job added successfully!", None)], true)
      case Failure(thrown) => Submission([request], [FailureToast(thrown.GetOr(DefaultFailureMessage))], false)
  }

  // ------------------------------------------------------------ CSV

  predicate NotQuote(c: char) { c != '"' }

  /** A CSV value as `parseCSV` reads it: trimmed, then every double quote
      removed. */
  function Cell(value: string): (c: string)
    ensures '"' !in c
  {
    Filter(Trim(value), NotQuote)
  }

  /** The values of one CSV line, split on every comma. */
  function Cells(line: string): (cs: seq<string>)
    ensures |cs| == |Split(line, ',')|
  {
    var values := Split(line, ',');
    seq(|values|, i requires 0 <= i < |values| => Cell(values[i]))
  }

  /** The values of the lines that are URLs, row by row and, within a row,
      column by column. */
  function CsvUrls(lines: seq<string>, isUrl: string -> bool): seq<string> {
    if |lines| == 0 then []
    else CsvUrls(lines[..|lines| - 1], isUrl) + Filter(Cells(lines[|lines| - 1]), isUrl)
  }

  /** `u` is the value at some column of some line. */
  predicate IsCellOf(lines: seq<string>, u: string) {
    exists i, j :: 0 <= i < |lines| && 0 <= j < |Cells(lines[i])| && Cells(lines[i])[j] == u
  }

  /** Every URL found is a URL value of some line. */
  lemma {:induction false} CsvUrlsAreCells(lines: seq<string>, isUrl: string -> bool, u: string)
    requires u in CsvUrls(lines, isUrl)
    ensures isUrl(u) && IsCellOf(lines, u)
    decreases |lines|
  {
    var init := lines[..|lines| - 1];
    var row := Cells(lines[|lines| - 1]);
    if u in CsvUrls(init, isUrl) {
      CsvUrlsAreCells(init, isUrl, u);
      var i, j :| 0 <= i < |init| && 0 <= j < |Cells(init[i])| && Cells(init[i])[j] == u;
      assert lines[i] == init[i];
    } else {
      assert u in Filter(row, isUrl);
      var j :| 0 <= j < |row| && row[j] == u;
      assert Cells(lines[|lines| - 1])[j] == u;
    }
  }

  /** Every value of a line that is a URL is found. */
  lemma {:induction false} CellsAreCsvUrls(lines: seq<string>, isUrl: string -> bool, u: string)
    requires isUrl(u) && IsCellOf(lines, u)
    ensures u in CsvUrls(lines, isUrl)
    decreases |lines|
  {
    var init := lines[..|lines| - 1];
    var row := Cells(lines[|lines| - 1]);
    assert CsvUrls(lines, isUrl) == CsvUrls(init, isUrl) + Filter(row, isUrl);
    var i, j :| 0 <= i < |lines| && 0 <= j < |Cells(lines[i])| && Cells(lines[i])[j] == u;
    if i < |init| {
      assert init[i] == lines[i];
      CellsAreCsvUrls(init, isUrl, u);
    } else {
      assert i == |lines| - 1;
      assert Cells(lines[i]) == row;
      assert row[j] == u;
      assert u in Filter(row, isUrl);
    }
  }

  /** A URL is in the result exactly when it is a value of some line. */
  lemma CsvUrlsAreTheUrlCells(lines: seq<string>, isUrl: string -> bool)
    ensures forall u :: u in CsvUrls(lines, isUrl) <==> isUrl(u) && IsCellOf(lines, u)
  {
    forall u
      ensures u in CsvUrls(lines, isUrl) <==> isUrl(u) && IsCellOf(lines, u)
    {
      if u in CsvUrls(lines, isUrl) {
        CsvUrlsAreCells(lines, isUrl, u);
      }
      if isUrl(u) && IsCellOf(lines, u) {
        CellsAreCsvUrls(lines, isUrl, u);
      }
    }
  }

  /** One value of a row: appended when it is a URL. */
  lemma FilterSnoc(values: seq<string>, j: nat, isUrl: string -> bool)
    requires j < |values|
    ensures Filter(values[..j + 1], isUrl) == Filter(values[..j], isUrl) + (if isUrl(values[j]) then [values[j]] else [])
  {
    assert values[..j + 1] == values[..j] + [values[j]];
    FilterConcat(values[..j], [values[j]], isUrl);
  }

  /** The inner loop of `parseCSV`: the row's URL values, column by column,
      appended to those found so far. */
  method AppendRowUrls(urls: seq<string>, values: seq<string>, isUrl: string -> bool) returns (r: seq<string>)
    ensures r == urls + Filter(values, isUrl)
  {
    r := urls;
    var j := 0;
    while j < |values|
      invariant 0 <= j <= |values|
      invariant r == urls + Filter(values[..j], isUrl)
    {
      FilterSnoc(values, j, isUrl);
      if isUrl(values[j]) {
        r := r + [values[j]];
      }
      j := j + 1;
    }
    assert values[..j] == values;
  }

  /** `parseCSV`: the values of the trimmed text's lines that are URLs. */
  method ParseCsv(csvText: string, isUrl: string -> bool) returns (urls: seq<string>)
    ensures urls == CsvUrls(Split(Trim(csvText), '\n'), isUrl)
  {
    var lines := Split(Trim(csvText), '\n');
    urls := [];
    var i := 0;
    while i < |lines|
      invariant 0 <= i <= |lines|
      invariant urls == CsvUrls(lines[..i], isUrl)
    {
      assert lines[..i + 1][..i] == lines[..i];
      urls := AppendRowUrls(urls, Cells(lines[i]), isUrl);
      i := i + 1;
    }
    assert lines[..i] == lines;
  }

  // ------------------------------------------------------------ pasted text

  predicate NotBlankLine(line: string) { Trim(line) != "" }

  /** The pasted links: the lines of the trimmed text that are not blank
      and whose trimmed form is a URL, each kept as written. */
  function BulkLinks(bulk: string, isUrl: string -> bool): (links: seq<string>)
    ensures forall i :: 0 <= i < |links| ==>
              links[i] in Split(Trim(bulk), '\n') && Trim(links[i]) != "" && isUrl(Trim(links[i]))
    ensures forall line :: line in Split(Trim(bulk), '\n') && Trim(line) != "" && isUrl(Trim(line)) ==> line in links
  {
    Filter(Filter(Split(Trim(bulk), '\n'), NotBlankLine), line => isUrl(Trim(line)))
  }

  /** The links of a bulk submission: a chosen CSV file wins over pasted
      text. */
  function LinksFor(csv: Option<string>, bulk: string, isUrl: string -> bool): seq<string> {
    if csv.Some? then CsvUrls(Split(Trim(csv.value), '\n'), isUrl) else BulkLinks(bulk, isUrl)
  }

  // ------------------------------------------------------------ sending

  /** The number of requests that came back ok. */
  function Successes(ok: seq<bool>): (n: nat)
    ensures n <= |ok|
  {
    if |ok| == 0 then 0 else Successes(ok[..|ok| - 1]) + (if ok[|ok| - 1] then 1 else 0)
  }

  /** The number of requests that failed or threw: every other one. */
  function Failures(ok: seq<bool>): (n: nat)
    ensures n + Successes(ok) == |ok|
  {
    if |ok| == 0 then 0 else Failures(ok[..|ok| - 1]) + (if ok[|ok| - 1] then 0 else 1)
  }

  /** `processJobs`: one request per link, in order; every request is
      counted once, as a success or as a failure. */
  method ProcessJobs(jobLinks: seq<string>, responseOk: seq<bool>)
    returns (successCount: nat, failureCount: nat, requests: seq<JobRequest>)
    requires |responseOk| == |jobLinks|
    ensures |requests| == |jobLinks|
    ensures forall i :: 0 <= i < |jobLinks| ==> requests[i] == JobRequest(jobLinks[i], "individual")
    ensures successCount == Successes(responseOk) && failureCount == Failures(responseOk)
    ensures successCount + failureCount == |jobLinks|
  {
    successCount, failureCount, requests := 0, 0, [];
    var i := 0;
    while i < |jobLinks|
      invariant 0 <= i <= |jobLinks|
      invariant |requests| == i
      invariant forall k :: 0 <= k < i ==> requests[k] == JobRequest(jobLinks[k], "individual")
      invariant successCount == Successes(responseOk[..i]) && failureCount == Failures(responseOk[..i])
    {
      requests := requests + [JobRequest(jobLinks[i], "individual")];
      assert responseOk[..i + 1][..i] == responseOk[..i];
      if responseOk[i] {
        successCount := successCount + 1;
      } else {
        failureCount := failureCount + 1;
      }
      i := i + 1;
    }
    assert responseOk[..i] == responseOk;
  }

  /** The toasts after the bulk requests: the number added, then the
      number that failed if any; an error when none was added. */
  function BulkToasts(successCount: nat, failureCount: nat): (ts: seq<Toast>)
    ensures successCount == 0 ==> ts == [ErrorToast(NoneAddedMessage, None)]
    ensures successCount > 0 ==> |ts| >= 1 && ts[0].SuccessToast? && (|ts| == 2 <==> failureCount > 0) && |ts| <= 2
  {
    if successCount > 0 then
      [SuccessToast("Successfully added " + NatToString(successCount) + " job(s)!", None)]
      + (if failureCount > 0 then [WarningToast(NatToString(failureCount) + " job(s) failed to add")] else [])
    else [ErrorToast(NoneAddedMessage, None)]
  }

  /** The end of `handleBulkSubmit`, once there are links: every link is
      sent, the toasts report the counts, and the dialog closes exactly
      when at least one was added. */
  method SendLinks(jobLinks: seq<string>, responseOk: seq<bool>) returns (s: Submission)
    requires |responseOk| == |jobLinks|
    ensures |s.requests| == |jobLinks|
    ensures forall i :: 0 <= i < |jobLinks| ==> s.requests[i] == JobRequest(jobLinks[i], "individual")
    ensures s.toasts == BulkToasts(Successes(responseOk), Failures(responseOk))
    ensures s.closed <==> Successes(responseOk) > 0
  {
    var successCount, failureCount, requests := ProcessJobs(jobLinks, responseOk);
    return Submission(requests, BulkToasts(successCount, failureCount), successCount > 0);
  }

  /** `handleBulkSubmit`: nothing is sent without input or without a URL;
      otherwise the links (the CSV file's when one is chosen) are sent. */
  method HandleBulkSubmit(bulk: string, csv: Option<string>, isUrl: string -> bool, responseOk: seq<bool>)
    returns (s: Submission)
    requires |responseOk| == |LinksFor(csv, bulk, isUrl)|
    ensures Trim(bulk) == "" && csv.None? ==> s == Submission([], [ErrorToast(NoDataMessage, None)], false)
    ensures !(Trim(bulk) == "" && csv.None?) && LinksFor(csv, bulk, isUrl) == [] ==>
              s == Submission([], [ErrorToast(NoUrlsMessage, None)], false)
    ensures !(Trim(bulk) == "" && csv.None?) && LinksFor(csv, bulk, isUrl) != [] ==>
              var links := LinksFor(csv, bulk, isUrl);
              |s.requests| == |links|
              && (forall i :: 0 <= i < |links| ==> s.requests[i] == JobRequest(links[i], "individual"))
              && s.toasts == BulkToasts(Successes(responseOk), Failures(responseOk))
              && (s.closed <==> Successes(responseOk) > 0)
  {
    if Trim(bulk) == "" && csv.None? {
      return Submission([], [ErrorToast(NoDataMessage, None)], false);
    }
    var jobLinks: seq<string>;
    if csv.Some? {
      jobLinks := ParseCsv(csv.value, isUrl);
    } else {
      jobLinks := BulkLinks(bulk, isUrl);
    }
    assert jobLinks == LinksFor(csv, bulk, isUrl);
    if |jobLinks| == 0 {
      return Submission([], [ErrorToast(NoUrlsMessage, None)], false);
    }
    s := SendLinks(jobLinks, responseOk);
  }
}
