/** The job-search action's parser: `parseJobResults` reads job records out
    of line-oriented text ("Title: ...", "Company: ...", ...). */
module SearchJobs {
  import opened Wrappers
  import opened Text
  import opened Seqs

  datatype Field = Company | Location | Description | Link | PostedAt | Source

  /** A record under construction: every field may be missing. */
  datatype JobRecord = JobRecord(title: Option<string>, company: Option<string>, location: Option<string>,
                                 description: Option<string>, link: Option<string>,
                                 postedAt: Option<string>, source: Option<string>)

  const EmptyRecord := JobRecord(None, None, None, None, None, None, None)

  /** A JavaScript truthiness test on an optional string. */
  predicate Truthy(f: Option<string>) { f.Some? && f.value != "" }

  function Get(r: JobRecord, f: Field): Option<string> {
    match f
    case Company => r.company
    case Location => r.location
    case Description => r.description
    case Link => r.link
    case PostedAt => r.postedAt
    case Source => r.source
  }

  function Set(r: JobRecord, f: Field, v: string): (r': JobRecord)
    ensures Get(r', f) == Some(v) && r'.title == r.title
    ensures forall g :: g != f ==> Get(r', g) == Get(r, g)
  {
    match f
    case Company => r.(company := Some(v))
    case Location => r.(location := Some(v))
    case Description => r.(description := Some(v))
    case Link => r.(link := Some(v))
    case PostedAt => r.(postedAt := Some(v))
    case Source => r.(source := Some(v))
  }

  /** What a line says, once trimmed. */
  datatype LineKind = TitleLine(value: string) | FieldLine(field: Field, value: string) | OtherLine

  /** The text after a label, trimmed. */
  function After(t: string, prefix: string): string
    requires |prefix| <= |t|
  {
    Trim(t[|prefix|..])
  }

  /** The if-chain of the loop: labels are matched case-insensitively at
      the start of the trimmed line, in this order. */
  function Classify(line: string): LineKind {
    var t := Trim(line);
    var l := ToLower(t);
    if StartsWith(l, "title:") then TitleLine(After(t, "title:"))
    else if StartsWith(l, "job title:") then TitleLine(After(t, "job title:"))
    else if StartsWith(l, "company:") then FieldLine(Company, After(t, "company:"))
    else if StartsWith(l, "location:") then FieldLine(Location, After(t, "location:"))
    else if StartsWith(l, "description:") then FieldLine(Description, After(t, "description:"))
    else if StartsWith(l, "link:") then FieldLine(Link, After(t, "link:"))
    else if StartsWith(l, "url:") then FieldLine(Link, After(t, "url:"))
    else if StartsWith(l, "posted:") then FieldLine(PostedAt, After(t, "posted:"))
    else if StartsWith(l, "date:") then FieldLine(PostedAt, After(t, "date:"))
    else if StartsWith(l, "source:") then FieldLine(Source, After(t, "source:"))
    else OtherLine
  }

  /** The records pushed so far and the one being filled. */
  datatype ParseState = ParseState(jobs: seq<JobRecord>, current: JobRecord)

  /** The record list once a record is closed: kept only if it has a
      title. */
  function Close(jobs: seq<JobRecord>, current: JobRecord): seq<JobRecord> {
    if Truthy(current.title) then jobs + [current] else jobs
  }

  /** One pass of the loop body. */
  function Step(st: ParseState, line: string): ParseState {
    match Classify(line)
    case TitleLine(v) => ParseState(Close(st.jobs, st.current), EmptyRecord.(title := Some(v)))
    case FieldLine(f, v) => st.(current := Set(st.current, f, v))
    case OtherLine => st
  }

  /** The state after the given lines. */
  function Parse(lines: seq<string>): ParseState {
    if |lines| == 0 then ParseState([], EmptyRecord)
    else Step(Parse(lines[..|lines| - 1]), lines[|lines| - 1])
  }

  /** A record the final filter keeps. */
  predicate Complete(r: JobRecord) { Truthy(r.title) && Truthy(r.company) && Truthy(r.link) }

  /** `parseJobResults`. */
  method ParseJobResults(content: string) returns (results: seq<JobRecord>)
    ensures results == Filter(Close(Parse(Split(content, '\n')).jobs, Parse(Split(content, '\n')).current), Complete)
  {
    var lines := Split(content, '\n');
    var jobs: seq<JobRecord> := [];
    var currentJob := EmptyRecord;
    var i := 0;
    while i < |lines|
      invariant 0 <= i <= |lines|
      invariant ParseState(jobs, currentJob) == Parse(lines[..i])
    {
      assert lines[..i + 1][..i] == lines[..i];
      var kind := Classify(lines[i]);
      match kind {
        case TitleLine(v) =>
          if Truthy(currentJob.title) {
            jobs := jobs + [currentJob];
          }
          currentJob := EmptyRecord.(title := Some(v));
        case FieldLine(f, v) =>
          currentJob := Set(currentJob, f, v);
        case OtherLine =>
      }
      i := i + 1;
    }
    assert lines[..|lines|] == lines;
    if Truthy(currentJob.title) {
      jobs := jobs + [currentJob];
    }
    results := Filter(jobs, Complete);
  }

  /** The result holds only complete records, each one of the records the
      loop closed. */
  lemma ResultsAreComplete(content: string)
    ensures var st := Parse(Split(content, '\n'));
            forall r :: r in Filter(Close(st.jobs, st.current), Complete) ==>
              Complete(r) && r in Close(st.jobs, st.current)
  {
  }

  /** The number of title lines with a non-empty title. */
  function TitledLines(lines: seq<string>): nat {
    if |lines| == 0 then 0
    else TitledLines(lines[..|lines| - 1])
         + (if Classify(lines[|lines| - 1]).TitleLine? && Classify(lines[|lines| - 1]).value != "" then 1 else 0)
  }

  /** Every record the loop pushes has a title, and one record comes out of
      each title line with a non-empty title: a record is pushed only when
      the next title line or the end of the text closes it. */
  lemma {:induction false} OneRecordPerTitledLine(lines: seq<string>)
    ensures forall j :: 0 <= j < |Parse(lines).jobs| ==> Truthy(Parse(lines).jobs[j].title)
    ensures |Close(Parse(lines).jobs, Parse(lines).current)| == TitledLines(lines)
    decreases |lines|
  {
    if |lines| > 0 {
      var init := lines[..|lines| - 1];
      OneRecordPerTitledLine(init);
      StepClosesTitled(Parse(init), lines[|lines| - 1]);
    }
  }

  /** One line pushes only titled records, and adds one record to the
      closed list exactly when it is a title line with a title. */
  lemma StepClosesTitled(st: ParseState, line: string)
    requires forall j :: 0 <= j < |st.jobs| ==> Truthy(st.jobs[j].title)
    ensures forall j :: 0 <= j < |Step(st, line).jobs| ==> Truthy(Step(st, line).jobs[j].title)
    ensures |Close(Step(st, line).jobs, Step(st, line).current)|
            == |Close(st.jobs, st.current)| + (if Classify(line).TitleLine? && Classify(line).value != "" then 1 else 0)
  {
    match Classify(line)
    case TitleLine(v) =>
    case FieldLine(f, v) =>
    case OtherLine =>
  }

  predicate NoLabelFor(line: string, f: Field) {
    Classify(line).OtherLine? || (Classify(line).FieldLine? && Classify(line).field != f)
  }

  /** A line for a field sets that field of the current record. */
  lemma StepSetsField(st: ParseState, line: string)
    requires Classify(line).FieldLine?
    ensures Get(Step(st, line).current, Classify(line).field) == Some(Classify(line).value)
  {
  }

  /** A line without a label for a field leaves that field alone. */
  lemma StepKeepsField(st: ParseState, line: string, f: Field)
    requires NoLabelFor(line, f)
    ensures Get(Step(st, line).current, f) == Get(st.current, f)
  {
  }

  /** Parsing one more line is one more step. */
  lemma ParseSnoc(lines: seq<string>, line: string)
    ensures Parse(lines + [line]) == Step(Parse(lines), line)
  {
    assert (lines + [line])[..|lines|] == lines;
  }

  lemma Regroup(before: seq<string>, line: string, after: seq<string>)
    requires |after| > 0
    ensures before + [line] + after == (before + [line] + after[..|after| - 1]) + [after[|after| - 1]]
  {
    assert after == after[..|after| - 1] + [after[|after| - 1]];
  }

  /** The last line for a field wins: after it, a field is changed only by
      another line for it or by a new title. */
  lemma {:induction false} LastFieldLineWins(before: seq<string>, line: string, after: seq<string>)
    requires Classify(line).FieldLine?
    requires forall j :: 0 <= j < |after| ==> NoLabelFor(after[j], Classify(line).field)
    ensures Get(Parse(before + [line] + after).current, Classify(line).field) == Some(Classify(line).value)
    decreases |after|
  {
    if |after| == 0 {
      assert before + [line] + after == before + [line];
      ParseSnoc(before, line);
      StepSetsField(Parse(before), line);
    } else {
      var init := after[..|after| - 1];
      var last := after[|after| - 1];
      LastFieldLineWins(before, line, init);
      Regroup(before, line, after);
      ParseSnoc(before + [line] + init, last);
      StepKeepsField(Parse(before + [line] + init), last, Classify(line).field);
    }
  }
}
