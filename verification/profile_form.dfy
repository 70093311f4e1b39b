/** The profile form: its skill list, the auto-fill from a parsed resume,
    and the resume fields of the profile it saves.

    The parsed resume is the decoded JSON object the parser returned, as
    its entries in order (an object's keys are distinct); the upload of a
    selected resume file is an input: the URL it returned, or a failure. */
module ProfileForm {
  import opened Wrappers
  import opened Seqs
  import opened JsonValues

  // ------------------------------------------------------------ skills

  /** `addSkill`: the skill is appended unless it is already listed. */
  function AddSkill(skills: seq<string>, skill: string): (r: seq<string>)
    ensures skill in skills ==> r == skills
    ensures skill !in skills ==> r == skills + [skill]
    ensures skill in r
  {
    if skill in skills then skills else skills + [skill]
  }

  predicate Other(skill: string, s: string) { s != skill }

  /** `removeSkill`: every occurrence goes, the rest keep their order. */
  function RemoveSkill(skills: seq<string>, skill: string): (r: seq<string>)
    ensures skill !in r
    ensures forall s :: s in r <==> s in skills && s != skill
  {
    Filter(skills, s => Other(skill, s))
  }

  /** Removal goes skill by skill: one more listed skill stays, at the end,
      exactly when it is not the one removed. With the empty list giving
      nothing, this fixes the result: the other skills, in their order,
      with their repeats. */
  lemma {:induction false} RemoveSkillSnoc(skills: seq<string>, s: string, skill: string)
    ensures RemoveSkill([], skill) == []
    ensures RemoveSkill(skills + [s], skill) == RemoveSkill(skills, skill) + (if s == skill then [] else [s])
  {
    FilterConcat(skills, [s], s => Other(skill, s));
  }

  /** Removing from two lists joined is removing from each. */
  lemma {:induction false} RemoveSkillConcat(a: seq<string>, b: seq<string>, skill: string)
    ensures RemoveSkill(a + b, skill) == RemoveSkill(a, skill) + RemoveSkill(b, skill)
  {
    FilterConcat(a, b, s => Other(skill, s));
  }

  /** Adding never lists a skill twice. */
  lemma AddSkillKeepsDistinct(skills: seq<string>, skill: string)
    requires Distinct(skills)
    ensures Distinct(AddSkill(skills, skill))
  {
  }

  /** Removing a skill just added gives the list back. */
  lemma {:induction false} RemoveUndoesAdd(skills: seq<string>, skill: string)
    requires skill !in skills
    ensures RemoveSkill(AddSkill(skills, skill), skill) == skills
  {
    FilterConcat(skills, [skill], s => Other(skill, s));
    FilterAll(skills, s => Other(skill, s));
  }

  // ------------------------------------------------------------ auto-fill

  /** An experience or education list with every falsy entry replaced by
      an empty object. */
  function Defaulted(items: seq<Json>): (r: seq<Json>)
    ensures |r| == |items|
    ensures forall i :: 0 <= i < |items| ==> r[i] == (if JsTruthy(items[i]) then items[i] else JObj(map[]))
  {
    seq(|items|, i requires 0 <= i < |items| => if JsTruthy(items[i]) then items[i] else JObj(map[]))
  }

  /** One entry of the parsed data, as the `forEach` body stores it. */
  function Store(form: map<string, Json>, key: string, value: Json): map<string, Json> {
    if value == JNull then form
    else if key == "experience" && value.JArr? then form["experiences" := JArr(Defaulted(value.items))]
    else if key == "education" && value.JArr? then form["education" := JArr(Defaulted(value.items))]
    else if key == "skills" && value.JArr? then form["skills" := value]
    else if key != "experience" && key != "education" then form[key := value]
    else form
  }

  /** The form data after the given entries. */
  function Build(entries: seq<(string, Json)>): map<string, Json> {
    if |entries| == 0 then map[]
    else Store(Build(entries[..|entries| - 1]), entries[|entries| - 1].0, entries[|entries| - 1].1)
  }

  /** The loop of `handleResumeDataParsed`: no data is a no-op (`None`, the
      form is not reset); otherwise the form is reset to the object built
      from the entries. */
  method HandleResumeDataParsed(data: Option<seq<(string, Json)>>) returns (formData: Option<map<string, Json>>)
    ensures data.None? <==> formData.None?
    ensures data.Some? ==> formData == Some(Build(data.value))
  {
    if data.None? {
      return None;
    }
    var entries := data.value;
    var form: map<string, Json> := map[];
    var i := 0;
    while i < |entries|
      invariant 0 <= i <= |entries|
      invariant form == Build(entries[..i])
    {
      assert entries[..i + 1][..i] == entries[..i];
      var (key, value) := entries[i];
      if value != JNull {
        if key == "experience" && value.JArr? {
          form := form["experiences" := JArr(Defaulted(value.items))];
        } else if key == "education" && value.JArr? {
          form := form["education" := JArr(Defaulted(value.items))];
        } else if key == "skills" && value.JArr? {
          form := form["skills" := value];
        } else if key != "experience" && key != "education" {
          form := form[key := value];
        }
      }
      i := i + 1;
    }
    assert entries[..i] == entries;
    return Some(form);
  }

  /** What the built object holds: no null, never an `experience` key, an
      `education` only as a list, and lists without falsy entries. */
  predicate WellBuilt(form: map<string, Json>) {
    "experience" !in form
    && (forall k :: k in form ==> form[k] != JNull)
    && ("education" in form ==>
          (form["education"].JArr?
           && forall i :: 0 <= i < |form["education"].items| ==> JsTruthy(form["education"].items[i])))
  }

  /** Every object the loop builds is well built. */
  lemma {:induction false} BuildIsWellBuilt(entries: seq<(string, Json)>)
    ensures WellBuilt(Build(entries))
    decreases |entries|
  {
    if |entries| > 0 {
      BuildIsWellBuilt(entries[..|entries| - 1]);
      var value := entries[|entries| - 1].1;
      if value.JArr? {
        var d := Defaulted(value.items);
        assert forall i :: 0 <= i < |d| ==> JsTruthy(d[i]);
      }
    }
  }

  /** Where a list key of the data is stored: `experience` under
      `experiences`, `education` under its own name. */
  function ListTarget(key: string): string {
    if key == "experience" then "experiences" else key
  }

  /** An `experience` or `education` list is stored, with its falsy entries
      replaced by empty objects, under its target key, unless a later entry
      overwrites it. */
  lemma {:induction false} ListsAreDefaulted(entries: seq<(string, Json)>, i: nat)
    requires i < |entries|
    requires entries[i].0 == "experience" || entries[i].0 == "education"
    requires entries[i].1.JArr?
    requires forall j :: i < j < |entries| ==> entries[j].0 != entries[i].0 && entries[j].0 != ListTarget(entries[i].0)
    ensures ListTarget(entries[i].0) in Build(entries)
    ensures Build(entries)[ListTarget(entries[i].0)] == JArr(Defaulted(entries[i].1.items))
    decreases |entries|
  {
    if i < |entries| - 1 {
      ListsAreDefaulted(entries[..|entries| - 1], i);
    }
  }

  /** Keys the loop renames or drops. */
  predicate Special(key: string) { key == "experience" || key == "education" || key == "experiences" }

  /** Any other key of the data is copied unchanged when it is not null,
      and left out when it is. */
  lemma {:induction false} OtherKeysAreCopied(entries: seq<(string, Json)>, i: nat)
    requires i < |entries|
    requires forall a, b :: 0 <= a < b < |entries| ==> entries[a].0 != entries[b].0
    requires !Special(entries[i].0)
    ensures entries[i].1 != JNull ==> entries[i].0 in Build(entries) && Build(entries)[entries[i].0] == entries[i].1
    ensures entries[i].1 == JNull ==> entries[i].0 !in Build(entries)
    decreases |entries|
  {
    var init := entries[..|entries| - 1];
    if i < |entries| - 1 {
      OtherKeysAreCopied(init, i);
      assert entries[|entries| - 1].0 != entries[i].0;
    } else {
      BuildLacksUnseenKey(init, entries[i].0);
    }
  }

  /** A key no entry has is not in the built object, unless the loop
      produces it itself. */
  lemma {:induction false} BuildLacksUnseenKey(entries: seq<(string, Json)>, key: string)
    requires !Special(key)
    requires forall a :: 0 <= a < |entries| ==> entries[a].0 != key
    ensures key !in Build(entries)
    decreases |entries|
  {
    if |entries| > 0 {
      BuildLacksUnseenKey(entries[..|entries| - 1], key);
    }
  }

  // ------------------------------------------------------------ saving

  /** The resume fields of the saved profile: a selected file is uploaded
      first (a failed upload fails the save; an empty URL counts as none);
      `resumeUploaded` is whether a URL remains. */
  function ResumeFields(resumeUrl: Option<string>, upload: Option<Result<string, string>>)
    : (r: Result<(Option<string>, bool), string>)
    ensures r.Failure? <==> upload.Some? && upload.value.Failure?
    ensures r.Failure? ==> r.error == "Failed to upload resume"
    ensures r.Success? ==> (r.value.1 <==> r.value.0.Some? && r.value.0.value != "")
    ensures r.Success? && upload.None? ==> r.value.0 == resumeUrl
    ensures r.Success? && upload.Some? ==> (r.value.1 <==> upload.value.value != "")
  {
    var url :=
      if upload.None? then Success(resumeUrl)
      else if upload.value.Failure? then Failure("Failed to upload resume")
      else if upload.value.value != "" then Success(Some(upload.value.value))
      else Success(None);
    match url
    case Failure(e) => Failure(e)
    case Success(u) => Success((u, u.Some? && u.value != ""))
  }
}
