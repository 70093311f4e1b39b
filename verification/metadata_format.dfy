/** How the search-metadata panel labels the fields the agent reported: a
    readable title made from the field's key, and an icon chosen by the
    keywords the key contains. */
module MetadataFormat {
  import opened Text
  import opened Seqs

  // ------------------------------------------------------------ titles

  /** One leading `c` removed, if there is one. */
  function DropLeading(s: string, c: char): (r: string)
    ensures |s| > 0 && s[0] == c ==> r == s[1..]
    ensures !(|s| > 0 && s[0] == c) ==> r == s
  {
    if |s| > 0 && s[0] == c then s[1..] else s
  }

  /** Every `_` becomes a space. */
  function Unsnake(s: string): (r: string)
    ensures |r| == |s|
    ensures '_' !in r
    ensures forall i :: 0 <= i < |s| && s[i] == '_' ==> r[i] == ' '
    ensures forall i :: 0 <= i < |s| && s[i] != '_' ==> r[i] == s[i]
  {
    seq(|s|, i requires 0 <= i < |s| => if s[i] == '_' then ' ' else s[i])
  }

  /** What one character of the camel-case pass becomes. */
  function Spaced(c: char): string {
    if IsUpper(c) then [' ', c] else [c]
  }

  /** A space before each upper-case letter: the text grows by exactly one
      character per capital. */
  function SplitCamel(s: string): (r: string)
    ensures |r| == |s| + Count(s, IsUpper)
    ensures forall c :: c in r && c != ' ' ==> c in s
  {
    if |s| == 0 then "" else Spaced(s[0]) + SplitCamel(s[1..])
  }

  /** Neither a space nor other white space. */
  predicate Visible(c: char) { !IsSpace(c) }

  /** Each upper-case letter of the result follows a space, and only spaces
      were added: dropping the white space gives the same text either way. */
  lemma {:induction false} SplitCamelSpacesCapitals(s: string)
    ensures var r := SplitCamel(s);
            forall i :: 0 <= i < |r| && IsUpper(r[i]) ==> i > 0 && r[i - 1] == ' '
    ensures Filter(SplitCamel(s), Visible) == Filter(s, Visible)
    decreases |s|
  {
    if |s| > 0 {
      SplitCamelSpacesCapitals(s[1..]);
      var head := Spaced(s[0]);
      var r := SplitCamel(s);
      assert r == head + SplitCamel(s[1..]);
      forall i | 0 <= i < |r| && IsUpper(r[i])
        ensures i > 0 && r[i - 1] == ' '
      {
        if i >= |head| {
          var j := i - |head|;
          assert r[i] == SplitCamel(s[1..])[j];
        }
      }
      FilterConcat(head, SplitCamel(s[1..]), Visible);
      FilterConcat([s[0]], s[1..], Visible);
      assert s == [s[0]] + s[1..];
    }
  }

  /** Starts a word: a word character with no word character before it. */
  predicate WordStart(s: string, i: int)
    requires 0 <= i < |s|
  {
    IsWordChar(s[i]) && (i == 0 || !IsWordChar(s[i - 1]))
  }

  /** Every word begins with something other than a lower-case letter. */
  predicate WordsCapitalised(s: string) {
    forall i :: 0 <= i < |s| && WordStart(s, i) ==> !IsLower(s[i])
  }

  /** The first character of each word upper-cased, every other character
      left as it is. */
  function CapitaliseWords(s: string): (r: string)
    ensures |r| == |s|
    ensures WordsCapitalised(r)
    ensures ToLower(r) == ToLower(s)
    ensures forall i :: 0 <= i < |s| && WordStart(s, i) ==> r[i] == UpperChar(s[i])
    ensures forall i :: 0 <= i < |s| && !WordStart(s, i) ==> r[i] == s[i]
  {
    var r := seq(|s|, i requires 0 <= i < |s| => if WordStart(s, i) then UpperChar(s[i]) else s[i]);
    assert forall i :: 0 <= i < |s| ==> (IsWordChar(r[i]) <==> IsWordChar(s[i]));
    assert forall i :: 0 <= i < |s| ==> LowerChar(r[i]) == LowerChar(s[i]);
    r
  }

  /** A slice that does not begin inside a word keeps its words' first
      letters. */
  lemma CapitalisedSlice(s: string, lo: nat, hi: nat)
    requires lo <= hi <= |s|
    requires WordsCapitalised(s)
    requires lo == 0 || !IsWordChar(s[lo - 1])
    ensures WordsCapitalised(s[lo..hi])
  {
    var t := s[lo..hi];
    forall i | 0 <= i < |t| && WordStart(t, i)
      ensures !IsLower(t[i])
    {
      assert t[i] == s[lo + i];
      assert WordStart(s, lo + i);
    }
  }

  /** Capitalising adds no underscore. */
  lemma CapitaliseAddsNoUnderscore(s: string)
    requires '_' !in s
    ensures '_' !in CapitaliseWords(s)
  {
    var r := CapitaliseWords(s);
    forall i | 0 <= i < |r|
      ensures r[i] != '_'
    {
      assert LowerChar(r[i]) == ToLower(r)[i] == ToLower(s)[i] == LowerChar(s[i]);
      assert s[i] in s;
    }
  }

  /** Trimming keeps what the words look like. */
  lemma TrimKeepsWords(s: string)
    requires '_' !in s
    requires WordsCapitalised(s)
    ensures '_' !in Trim(s)
    ensures WordsCapitalised(Trim(s))
  {
    var lo := LeadingSpaces(s);
    var rest := s[lo..];
    CapitalisedSlice(s, lo, |s|);
    CapitalisedSlice(rest, 0, TrailingStart(rest));
    assert forall c :: c in Trim(s) ==> c in s;
  }

  /** `formatFieldName`: one leading `@` and then one leading `_` dropped,
      snake case and camel case split into words, each word capitalised,
      and the ends trimmed. */
  function FormatFieldName(field: string): (r: string)
    ensures '_' !in r
    ensures WordsCapitalised(r)
    ensures |r| > 0 ==> !IsSpace(r[0]) && !IsSpace(r[|r| - 1])
  {
    var spaced := SplitCamel(Unsnake(Bare(field)));
    CapitaliseAddsNoUnderscore(spaced);
    TrimKeepsWords(CapitaliseWords(spaced));
    Trim(CapitaliseWords(spaced))
  }

  /** The key as the title is made from it: the `@` and `_` prefixes
      dropped. */
  function Bare(field: string): (r: string)
    ensures |r| <= |field|
  {
    DropLeading(DropLeading(field, '@'), '_')
  }

  /** A character of the key that shows in the title: not white space, and
      not an underscore. */
  predicate KeyChar(c: char) { !IsSpace(c) && c != '_' }

  /** The underscore pass works character by character. */
  lemma UnsnakeStep(s: string)
    requires |s| > 0
    ensures Unsnake(s) == [if s[0] == '_' then ' ' else s[0]] + Unsnake(s[1..])
  {
    var r := [if s[0] == '_' then ' ' else s[0]] + Unsnake(s[1..]);
    assert forall i :: 1 <= i < |s| ==> r[i] == Unsnake(s[1..])[i - 1];
  }

  /** Underscores become spaces, so only the key's other visible characters
      remain visible. */
  lemma {:induction false} UnsnakeVisible(s: string)
    ensures Filter(Unsnake(s), Visible) == Filter(s, KeyChar)
    decreases |s|
  {
    if |s| > 0 {
      UnsnakeVisible(s[1..]);
      var head := if s[0] == '_' then ' ' else s[0];
      UnsnakeStep(s);
      assert s == [s[0]] + s[1..];
      FilterConcat([head], Unsnake(s[1..]), Visible);
      FilterConcat([s[0]], s[1..], KeyChar);
    }
  }

  /** Lower-casing works character by character. */
  lemma ToLowerConcat(a: string, b: string)
    ensures ToLower(a + b) == ToLower(a) + ToLower(b)
  {
  }

  /** Lower-casing one character neither makes nor hides white space. */
  lemma LowerOneVisible(c: char)
    ensures ToLower(Filter([c], Visible)) == Filter(ToLower([c]), Visible)
  {
    assert ToLower([c]) == [LowerChar(c)];
  }

  /** Lower-casing neither makes nor hides white space, so it commutes with
      dropping it. */
  lemma {:induction false} LowerVisible(s: string)
    ensures ToLower(Filter(s, Visible)) == Filter(ToLower(s), Visible)
    decreases |s|
  {
    if |s| > 0 {
      var x, t := s[0], s[1..];
      LowerVisible(t);
      assert s == [x] + t;
      FilterConcat([x], t, Visible);
      ToLowerConcat(Filter([x], Visible), Filter(t, Visible));
      ToLowerConcat([x], t);
      FilterConcat(ToLower([x]), ToLower(t), Visible);
      LowerOneVisible(x);
    }
  }

  /** White space only: nothing visible. */
  lemma BlankHasNothingVisible(s: string)
    requires forall i :: 0 <= i < |s| ==> IsSpace(s[i])
    ensures Filter(s, Visible) == []
  {
  }

  /** Dropping leading white space hides nothing visible. */
  lemma DropBlankPrefix(s: string, lo: nat)
    requires lo <= |s|
    requires forall i :: 0 <= i < lo ==> IsSpace(s[i])
    ensures Filter(s[lo..], Visible) == Filter(s, Visible)
  {
    var head := s[..lo];
    assert s == head + s[lo..];
    assert forall i :: 0 <= i < |head| ==> IsSpace(head[i]);
    BlankHasNothingVisible(head);
    FilterConcat(head, s[lo..], Visible);
  }

  /** Dropping trailing white space hides nothing visible. */
  lemma DropBlankSuffix(s: string, hi: nat)
    requires hi <= |s|
    requires forall i :: hi <= i < |s| ==> IsSpace(s[i])
    ensures Filter(s[..hi], Visible) == Filter(s, Visible)
  {
    var tail := s[hi..];
    assert s == s[..hi] + tail;
    assert forall i :: 0 <= i < |tail| ==> IsSpace(tail[i]);
    BlankHasNothingVisible(tail);
    FilterConcat(s[..hi], tail, Visible);
  }

  /** Trimming drops white space only. */
  lemma TrimKeepsVisible(s: string)
    ensures Filter(Trim(s), Visible) == Filter(s, Visible)
  {
    var lo := LeadingSpaces(s);
    var t := s[lo..];
    DropBlankPrefix(s, lo);
    DropBlankSuffix(t, TrailingStart(t));
  }

  /** The title spells the key: apart from white space and letter case, it
      holds exactly the key's characters other than underscores, in order,
      once the prefixes are dropped. */
  lemma TitleSpellsKey(field: string)
    ensures ToLower(Filter(FormatFieldName(field), Visible)) == ToLower(Filter(Bare(field), KeyChar))
  {
    var u := Unsnake(Bare(field));
    var spaced := SplitCamel(u);
    var c := CapitaliseWords(spaced);
    TrimKeepsVisible(c);
    LowerVisible(c);
    LowerVisible(spaced);
    SplitCamelSpacesCapitals(u);
    UnsnakeVisible(Bare(field));
  }

  // ------------------------------------------------------------ icons

  datatype Icon = Building2 | MapPin | DollarSign | Clock | Users | Briefcase | GraduationCap | Zap

  /** Whether the key names one of the words. */
  predicate Mentions(key: string, words: seq<string>) {
    exists w :: w in words && Contains(key, w)
  }

  /** The keyword groups, in the order they are tried. */
  const Groups: seq<(Icon, seq<string>)> := [
    (Building2, ["company", "organization"]),
    (MapPin, ["location", "city", "country"]),
    (DollarSign, ["salary", "pay", "compensation"]),
    (Clock, ["time", "schedule", "hours"]),
    (Users, ["size", "team", "employee"]),
    (Briefcase, ["role", "position", "job"]),
    (GraduationCap, ["education", "degree", "qualification"])
  ]

  /** Group `k` is the first one the key mentions. */
  predicate FirstMention(key: string, groups: seq<(Icon, seq<string>)>, k: int)
    requires 0 <= k < |groups|
  {
    Mentions(key, groups[k].1) && forall j :: 0 <= j < k ==> !Mentions(key, groups[j].1)
  }

  /** The icon of the first group the key mentions, `fallback` when none. */
  function FirstGroup(key: string, groups: seq<(Icon, seq<string>)>, fallback: Icon): (r: Icon)
    ensures r == fallback || exists g :: g in groups && r == g.0 && Mentions(key, g.1)
    ensures (forall g :: g in groups ==> !Mentions(key, g.1)) ==> r == fallback
    ensures forall k :: 0 <= k < |groups| && FirstMention(key, groups, k) ==> r == groups[k].0
  {
    if |groups| == 0 then fallback
    else if Mentions(key, groups[0].1) then groups[0].0
    else FirstGroup(key, groups[1..], fallback)
  }

  /** `getFieldIcon`: the first group, in the order of `Groups`, with a
      word in the lower-cased key; the lightning icon otherwise. */
  function FieldIcon(field: string): (r: Icon)
    ensures r == Zap <==> forall g :: g in Groups ==> !Mentions(ToLower(field), g.1)
    ensures r != Zap ==> exists g :: g in Groups && r == g.0 && Mentions(ToLower(field), g.1)
    ensures forall k :: 0 <= k < |Groups| && FirstMention(ToLower(field), Groups, k) ==> r == Groups[k].0
  {
    NoGroupGivesZap(ToLower(field), Groups);
    FirstGroup(ToLower(field), Groups, Zap)
  }

  /** Zap belongs to no group, so it is the answer only when nothing
      matched. */
  lemma {:induction false} NoGroupGivesZap(key: string, groups: seq<(Icon, seq<string>)>)
    requires forall g :: g in groups ==> g.0 != Zap
    ensures FirstGroup(key, groups, Zap) == Zap ==> forall g :: g in groups ==> !Mentions(key, g.1)
    decreases |groups|
  {
    if |groups| > 0 && !Mentions(key, groups[0].1) {
      NoGroupGivesZap(key, groups[1..]);
      assert forall g :: g in groups ==> g == groups[0] || g in groups[1..];
    }
  }

  /** The icon does not depend on the key's letter case. */
  lemma FieldIconIgnoresCase(field: string)
    ensures FieldIcon(field) == FieldIcon(ToLower(field))
  {
    ToLowerIdempotent(field);
  }

  /** An earlier group wins: a company key names the company icon even when
      it also mentions a later group's word. */
  lemma CompanyComesFirst(field: string)
    requires Contains(ToLower(field), "company")
    ensures FieldIcon(field) == Building2
  {
    assert Mentions(ToLower(field), Groups[0].1);
  }

  /** `company_size` is shown with the company icon, not the team-size one. */
  lemma CompanySizeIsACompanyField()
    ensures FieldIcon("company_size") == Building2
  {
    assert ToLower("company_size")[..7] == "company";
    assert OccursAt(ToLower("company_size"), "company", 0);
    CompanyComesFirst("company_size");
  }

  /** The camel-case pass works character by character. */
  lemma {:induction false} SplitCamelConcat(a: string, b: string)
    ensures SplitCamel(a + b) == SplitCamel(a) + SplitCamel(b)
    decreases |a|
  {
    if |a| == 0 {
      assert a + b == b;
    } else {
      assert (a + b)[1..] == a[1..] + b;
      SplitCamelConcat(a[1..], b);
    }
  }

  /** Text without capitals is left as it is. */
  lemma {:induction false} SplitCamelNoCapitals(s: string)
    requires forall i :: 0 <= i < |s| ==> !IsUpper(s[i])
    ensures SplitCamel(s) == s
    decreases |s|
  {
    if |s| > 0 {
      SplitCamelNoCapitals(s[1..]);
    }
  }

  lemma SplitName()
    ensures SplitCamel("Name") == " Name"
  {
    SplitCamelNoCapitals("ame");
    SplitCamelConcat("N", "ame");
    assert "Name" == "N" + "ame";
  }

  lemma SplitFirstName()
    ensures SplitCamel("first" + "Name") == "first" + " Name"
  {
    SplitCamelNoCapitals("first");
    SplitName();
    SplitCamelConcat("first", "Name");
  }

  lemma FirstNameParts()
    ensures "firstName" == "first" + "Name"
    ensures "first Name" == "first" + " Name"
  {
  }

  lemma CapitaliseFirstName()
    ensures CapitaliseWords("first Name") == "First Name"
  {
  }

  lemma TrimFirstName()
    ensures Trim("First Name") == "First Name"
  {
    TrimUnpadded("First Name");
  }

  lemma PrefixesOfFirstName()
    ensures Unsnake(DropLeading(DropLeading("@_firstName", '@'), '_')) == "firstName"
  {
  }

  /** A camel-case key with both prefixes: `@_firstName` reads `First Name`. */
  lemma FirstNameExample()
    ensures FormatFieldName("@_firstName") == "First Name"
  {
    PrefixesOfFirstName();
    FirstNameParts();
    SplitFirstName();
    CapitaliseFirstName();
    TrimFirstName();
  }
}
