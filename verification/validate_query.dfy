/** `validateQuery`: a search query is judged by a language model; when the
    call fails or its reply has the wrong shape, a rule-based check on the
    trimmed, lower-cased query decides instead.

    The model's reply is an input: `None` when the call or the JSON parse
    threw, otherwise the fields the parsed object has. */
module ValidateQuery {
  import opened Wrappers
  import opened Text

  /** The parsed reply, each field present only if it has the right type. */
  datatype Reply = Reply(isValid: Option<bool>, reason: Option<string>, confidence: Option<real>)

  datatype ValidationResult = ValidationResult(isValid: bool, reason: string, confidence: Option<real>)

  const MinLength := 3
  const MaxLength := 200

  const TooShortReason := "Query is too short. Please provide more specific search terms."
  const TooLongReason := "Query is too long. Please provide a more concise search term."
  const NotJobReason := "Query doesn't appear to be job-related. Please search for employment opportunities, careers, or specific job roles."
  const JobReason := "Query appears to be job-related and appropriate for searching."

  const JobKeywords: seq<string> := [
    "job", "jobs", "career", "careers", "position", "positions",
    "role", "roles", "employment", "work", "hiring", "internship",
    "internships", "engineer", "developer", "manager", "analyst",
    "designer", "marketing", "sales", "finance", "hr", "remote",
    "full-time", "part-time", "contract", "freelance"
  ]

  /** Some keyword occurs in the query, as any substring. */
  predicate HasJobKeyword(q: string) {
    exists k :: k in JobKeywords && Contains(q, k)
  }

  /** The rule-based check of the `catch` branch. */
  function Fallback(query: string): (r: ValidationResult)
    ensures var q := ToLower(Trim(query));
            (|q| < MinLength ==> r == ValidationResult(false, TooShortReason, None))
            && (MinLength <= |q| <= MaxLength ==>
                  r == if HasJobKeyword(q) then ValidationResult(true, JobReason, Some(0.6))
                       else ValidationResult(false, NotJobReason, Some(0.8)))
            && (|q| > MaxLength ==> r == ValidationResult(false, TooLongReason, None))
    ensures r.isValid ==> r.confidence == Some(0.6)
    ensures !r.isValid && r.confidence.Some? ==> r.confidence == Some(0.8) && r.reason == NotJobReason
  {
    var trimmedQuery := ToLower(Trim(query));
    if |trimmedQuery| < MinLength then ValidationResult(false, TooShortReason, None)
    else if |trimmedQuery| > MaxLength then ValidationResult(false, TooLongReason, None)
    else if !HasJobKeyword(trimmedQuery) then ValidationResult(false, NotJobReason, Some(0.8))
    else ValidationResult(true, JobReason, Some(0.6))
  }

  /** `validateQuery`: the model's reply when it has a boolean `isValid` and
      a string `reason`, the fallback otherwise. */
  function ValidateQuery(query: string, reply: Option<Reply>): (r: ValidationResult)
    ensures reply.Some? && reply.value.isValid.Some? && reply.value.reason.Some? ==>
              r == ValidationResult(reply.value.isValid.value, reply.value.reason.value, reply.value.confidence)
    ensures !(reply.Some? && reply.value.isValid.Some? && reply.value.reason.Some?) ==> r == Fallback(query)
  {
    match reply
    case Some(Reply(Some(isValid), Some(reason), confidence)) => ValidationResult(isValid, reason, confidence)
    case _ => Fallback(query)
  }

  /** Keywords match inside words: "three" passes because it contains
      "hr". */
  lemma KeywordInsideAWordCounts()
    ensures Fallback("  Three ").isValid
  {
    PaddedThree();
    assert ToLower("Three") == "three";
    assert OccursAt("three", "hr", 1);
    assert "hr" in JobKeywords;
  }

  lemma PaddedThree()
    ensures Trim("  Three ") == "Three"
  {
    assert LeadingSpaces("  Three ") == 2;
    assert TrailingStart("Three ") == 5;
  }

  /** White space around the query, and letter case, never change the
      fallback's verdict. */
  lemma FallbackIgnoresCaseAndPadding(query: string)
    ensures Fallback(query) == Fallback(ToLower(Trim(query)))
  {
    var q := ToLower(Trim(query));
    TrimOfLowerTrimmed(query);
    assert ToLower(q) == q;
  }

  /** Lower-casing a trimmed string leaves nothing to trim. */
  lemma TrimOfLowerTrimmed(query: string)
    ensures Trim(ToLower(Trim(query))) == ToLower(Trim(query))
  {
    var t := Trim(query);
    var l := ToLower(t);
    if |l| > 0 {
      assert !IsSpace(t[0]) && !IsSpace(t[|t| - 1]);
      assert !IsSpace(l[0]) && !IsSpace(l[|l| - 1]);
    }
    TrimUnpadded(l);
  }
}
