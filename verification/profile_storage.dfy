/** The browser's stored user profile: one JSON object under one
    localStorage key, with the uploaded resume kept inside it as a data URL.

    The stored profile is the field `stored` (an absent key is `None`);
    `hasWindow` is false outside a browser. Reading the file into a data
    URL, the clock and base64 decoding (`atob`, which throws on malformed
    input) are inputs. */
module ProfileStorage {
  import opened Wrappers
  import opened Text

  /** A stored resume. */
  datatype ResumeFile = ResumeFile(name: string, size: nat, mimeType: string, lastModified: int, dataUrl: string)

  /** A browser `File`, as far as `saveResumeToProfile` looks at it. */
  datatype FileInfo = FileInfo(name: string, size: nat, mimeType: string, lastModified: int)

  datatype ResumeMetadata = ResumeMetadata(name: string, size: nat, mimeType: string, lastModified: int)

  /** A profile; `details` stands for the optional fields this file never
      looks at (address, links, credentials, ...). */
  datatype UserProfile = UserProfile(firstName: string, lastName: string, email: string,
                                     skills: Option<seq<string>>, languages: Option<seq<string>>,
                                     education: Option<seq<string>>, experience: Option<seq<string>>,
                                     details: string, resumeFile: Option<ResumeFile>,
                                     createdAt: Option<string>, updatedAt: Option<string>)

  const AllowedTypes: set<string> := {
    "application/pdf",
    "application/msword",
    "application/vnd.openxmlformats-officedocument.wordprocessingml.document",
    "text/plain"
  }

  const MaxResumeSize := 5 * 1024 * 1024

  const InvalidTypeMessage := "Invalid file type. Please upload a PDF, DOC, DOCX, or TXT file."
  const TooLargeMessage := "File size must be less than 5MB."

  /** The profile a resume goes into when none is stored. */
  const MinimalProfile := UserProfile("", "", "", Some([]), Some([]), Some([]), Some([]), "", None, None, None)

  /** A required field counts when it is non-empty and not only white
      space. */
  predicate Present(field: string) { field != "" && Trim(field) != "" }

  /** The profile `saveUserProfile` writes: the existing creation time if
      it is set and non-empty, otherwise now; updated now. */
  function Stamped(profile: UserProfile, existing: Option<UserProfile>, now: string): (p: UserProfile)
    ensures p.updatedAt == Some(now)
    ensures existing.Some? && existing.value.createdAt.Some? && existing.value.createdAt.value != "" ==>
              p.createdAt == existing.value.createdAt
    ensures !(existing.Some? && existing.value.createdAt.Some? && existing.value.createdAt.value != "") ==>
              p.createdAt == Some(now)
    ensures p.(createdAt := profile.createdAt, updatedAt := profile.updatedAt) == profile
  {
    var keep := existing.Some? && existing.value.createdAt.Some? && existing.value.createdAt.value != "";
    profile.(createdAt := if keep then existing.value.createdAt else Some(now), updatedAt := Some(now))
  }

  /** The data part of a data URL as `dataUrl.split(',')[1]` reads it: the
      text between the first and the second comma, or `None` when there is
      no comma (where the script gets `undefined`). */
  function DataPart(dataUrl: string): (r: Option<string>)
    ensures r.Some? <==> exists i :: 0 <= i < |dataUrl| && dataUrl[i] == ','
    ensures r.Some? ==> forall i :: 0 <= i < |r.value| ==> r.value[i] != ','
  {
    var parts := Split(dataUrl, ',');
    SplitCountsSeparators(dataUrl, ',');
    if |parts| >= 2 then Some(parts[1]) else None
  }

  /** A string splits into more than one part exactly when it holds the
      separator. */
  lemma {:induction false} SplitCountsSeparators(s: string, sep: char)
    ensures |Split(s, sep)| >= 2 <==> exists i :: 0 <= i < |s| && s[i] == sep
  {
    if |s| > 0 {
      SplitCountsSeparators(s[1..], sep);
      if exists i :: 0 <= i < |s[1..]| && s[1..][i] == sep {
        var i :| 0 <= i < |s[1..]| && s[1..][i] == sep;
        assert s[i + 1] == sep;
      }
      if exists i :: 0 <= i < |s| && s[i] == sep {
        var i :| 0 <= i < |s| && s[i] == sep;
        if i > 0 {
          assert s[1..][i - 1] == sep;
        }
      }
    }
  }

  /** A character stored into a `Uint8Array`: its code modulo 256. */
  function CharByte(c: char): bv8 {
    ((c as int) % 256) as bv8
  }

  /** The loop of `dataUrlToFile`: one byte per decoded character, filled
      from the last index down. */
  method DecodedBytes(bstr: string) returns (u8arr: array<bv8>)
    ensures fresh(u8arr)
    ensures u8arr.Length == |bstr|
    ensures forall i :: 0 <= i < |bstr| ==> u8arr[i] == CharByte(bstr[i])
  {
    var n := |bstr|;
    u8arr := new bv8[n];
    while n > 0
      invariant 0 <= n <= |bstr|
      invariant forall i :: n <= i < |bstr| ==> u8arr[i] == CharByte(bstr[i])
      decreases n
    {
      n := n - 1;
      u8arr[n] := CharByte(bstr[n]);
    }
  }

  /** `dataUrlToFile`'s content: the bytes of the decoded data part;
      `None` when `atob` throws. */
  method DataUrlToBytes(dataUrl: string, atob: string -> Option<string>) returns (r: Option<array<bv8>>)
    ensures var decoded := atob(DataPart(dataUrl).GetOr("undefined"));
            (r.None? <==> decoded.None?)
            && (r.Some? ==> fresh(r.value) && r.value.Length == |decoded.value|
                            && forall i :: 0 <= i < |decoded.value| ==> r.value[i] == CharByte(decoded.value[i]))
  {
    var bstr := atob(DataPart(dataUrl).GetOr("undefined"));
    if bstr.None? {
      return None;
    }
    var bytes := DecodedBytes(bstr.value);
    return Some(bytes);
  }

  /** The stored profile with its storage. */
  class ProfileStore {
    const hasWindow: bool
    var stored: Option<UserProfile>

    constructor (hasWindow: bool, stored: Option<UserProfile>)
      ensures this.hasWindow == hasWindow && this.stored == stored
    {
      this.hasWindow := hasWindow;
      this.stored := stored;
    }

    /** `getUserProfile`: the stored profile, or none outside a browser. */
    function GetUserProfile(): (p: Option<UserProfile>)
      reads this
      ensures !hasWindow ==> p.None?
      ensures hasWindow ==> p == stored
    {
      if hasWindow then stored else None
    }

    /** `saveUserProfile`: outside a browser nothing is written; otherwise
        the profile is written with its times stamped. */
    method SaveUserProfile(profile: UserProfile, now: string) returns (ok: bool)
      modifies this
      ensures ok == hasWindow
      ensures ok ==> stored == Some(Stamped(profile, old(GetUserProfile()), now))
      ensures !ok ==> stored == old(stored)
    {
      if !hasWindow {
        return false;
      }
      var existingProfile := GetUserProfile();
      stored := Some(Stamped(profile, existingProfile, now));
      return true;
    }

    /** `hasCompleteProfile`: a profile exists with first name, last name
        and email each present. */
    function HasCompleteProfile(): (b: bool)
      reads this
      ensures b <==> GetUserProfile().Some? && !IsBlank(GetUserProfile().value.firstName)
                     && !IsBlank(GetUserProfile().value.lastName) && !IsBlank(GetUserProfile().value.email)
    {
      var p := GetUserProfile();
      if p.None? then false
      else
        TrimEmptyIffBlank(p.value.firstName);
        TrimEmptyIffBlank(p.value.lastName);
        TrimEmptyIffBlank(p.value.email);
        Present(p.value.firstName) && Present(p.value.lastName) && Present(p.value.email)
    }

    /** `saveResumeToProfile`: a file of another type, or larger than 5 MiB,
        is refused before anything is read or written; otherwise the resume
        goes into the stored profile, or into a minimal one, which is then
        saved. */
    method SaveResumeToProfile(file: FileInfo, dataUrl: string, now: string) returns (r: Result<bool, string>)
      modifies this
      ensures file.mimeType !in AllowedTypes ==> r == Failure(InvalidTypeMessage) && stored == old(stored)
      ensures file.mimeType in AllowedTypes && file.size > MaxResumeSize ==>
                r == Failure(TooLargeMessage) && stored == old(stored)
      ensures file.mimeType in AllowedTypes && file.size <= MaxResumeSize ==>
                r == Success(hasWindow)
                && (hasWindow ==> stored == Some(Stamped(
                      old(stored).GetOr(MinimalProfile).(resumeFile := Some(ResumeFile(file.name, file.size, file.mimeType, file.lastModified, dataUrl))),
                      old(stored), now)))
                && (!hasWindow ==> stored == old(stored))
    {
      if file.mimeType !in AllowedTypes {
        return Failure(InvalidTypeMessage);
      }
      if file.size > MaxResumeSize {
        return Failure(TooLargeMessage);
      }
      var existingProfile := GetUserProfile();
      var profile := existingProfile.GetOr(MinimalProfile);
      var updatedProfile := profile.(resumeFile := Some(ResumeFile(file.name, file.size, file.mimeType, file.lastModified, dataUrl)));
      var ok := SaveUserProfile(updatedProfile, now);
      return Success(ok);
    }

    /** `getResumeMetadata`: the stored resume's name, size, type and time,
        or none. */
    function GetResumeMetadata(): (m: Option<ResumeMetadata>)
      reads this
      ensures m.None? <==> GetUserProfile().None? || GetUserProfile().value.resumeFile.None?
      ensures m.Some? ==> var f := GetUserProfile().value.resumeFile.value;
                          m.value == ResumeMetadata(f.name, f.size, f.mimeType, f.lastModified)
    {
      var p := GetUserProfile();
      if p.None? || p.value.resumeFile.None? then None
      else
        var f := p.value.resumeFile.value;
        Some(ResumeMetadata(f.name, f.size, f.mimeType, f.lastModified))
    }

    /** `getResumeDataUrl`: the stored data URL, none when it is empty. */
    function GetResumeDataUrl(): (u: Option<string>)
      reads this
      ensures u.None? <==> GetUserProfile().None? || GetUserProfile().value.resumeFile.None?
                           || GetUserProfile().value.resumeFile.value.dataUrl == ""
      ensures u.Some? ==> u.value != "" && GetUserProfile().Some? && GetUserProfile().value.resumeFile.Some?
                          && u.value == GetUserProfile().value.resumeFile.value.dataUrl
    {
      var p := GetUserProfile();
      if p.Some? && p.value.resumeFile.Some? && p.value.resumeFile.value.dataUrl != "" then Some(p.value.resumeFile.value.dataUrl)
      else None
    }

    /** `removeResumeFromProfile`: false without a profile; otherwise the
        profile is saved again without its resume, nothing else changed
        but the times. */
    method RemoveResumeFromProfile(now: string) returns (ok: bool)
      modifies this
      ensures ok <==> old(GetUserProfile()).Some?
      ensures !ok ==> stored == old(stored)
      ensures ok ==> stored == Some(Stamped(old(stored).value.(resumeFile := None), old(stored), now))
      ensures ok ==> GetResumeMetadata().None?
    {
      var profile := GetUserProfile();
      if profile.None? {
        return false;
      }
      var updatedProfile := profile.value.(resumeFile := None);
      ok := SaveUserProfile(updatedProfile, now);
    }
  }

  /** A saved resume reads back: its metadata are those of the file, and the
      profile's other fields, creation time aside, are unchanged. */
  lemma SavedResumeReadsBack(existing: Option<UserProfile>, file: FileInfo, dataUrl: string, now: string)
    ensures var p := Stamped(existing.GetOr(MinimalProfile).(resumeFile := Some(ResumeFile(file.name, file.size, file.mimeType, file.lastModified, dataUrl))), existing, now);
            p.resumeFile == Some(ResumeFile(file.name, file.size, file.mimeType, file.lastModified, dataUrl))
            && (existing.Some? ==> p.(resumeFile := None, createdAt := None, updatedAt := None)
                                   == existing.value.(resumeFile := None, createdAt := None, updatedAt := None))
            && (existing.None? ==> p.firstName == "" && p.lastName == "" && p.email == "" && p.skills == Some([]))
  {
  }
}
