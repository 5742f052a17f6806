/** The demographics step of the intake wizard: the submitted fields are read
    from the form, checked against the demographics schema, and either saved
    into the store (and the wizard moves on) or turned into one error message
    per field. Name fields are capitalised word by word as they are typed. */
module DemographicsForm {
  import opened Shared
  import opened Validation
  import IntakeStore

  // ---------------------------------------------------------------------------
  // Field errors
  // ---------------------------------------------------------------------------

  /** The key an issue is filed under: the first element of its path, which
      is `undefined` (and so the key "undefined") for an empty path. */
  function FieldKey(path: seq<string>): string {
    if path == [] then "undefined" else path[0]
  }

  /** The error messages by field after writing every issue's message under
      its key, first issue to last. */
  function ErrorsFrom(issues: seq<Issue>): (r: map<string, string>)
    ensures r.Keys == set i | 0 <= i < |issues| :: FieldKey(issues[i].path)
  {
    if issues == [] then map[]
    else
      var n := |issues| - 1;
      var before := ErrorsFrom(issues[..n]);
      assert forall i :: 0 <= i < n ==> issues[..n][i] == issues[i];
      before[FieldKey(issues[n].path) := issues[n].message]
  }

  /** Each field shows the message of its LAST issue. */
  lemma {:induction false} LastIssueWins(issues: seq<Issue>, j: nat)
    requires j < |issues|
    requires forall l :: j < l < |issues| ==> FieldKey(issues[l].path) != FieldKey(issues[j].path)
    ensures FieldKey(issues[j].path) in ErrorsFrom(issues)
    ensures ErrorsFrom(issues)[FieldKey(issues[j].path)] == issues[j].message
    decreases |issues|
  {
    var n := |issues| - 1;
    var k := FieldKey(issues[j].path);
    var before := ErrorsFrom(issues[..n]);
    assert ErrorsFrom(issues) == before[FieldKey(issues[n].path) := issues[n].message];
    if j < n {
      assert issues[..n][j] == issues[j];
      assert forall l :: j < l < n ==> issues[..n][l] == issues[l];
      LastIssueWins(issues[..n], j);
      assert FieldKey(issues[n].path) != k;
    }
  }

  /** No issues, no errors; one field's issues never show under another. */
  lemma ErrorsOnlyForIssues(issues: seq<Issue>, k: string)
    ensures issues == [] ==> ErrorsFrom(issues) == map[]
    ensures k in ErrorsFrom(issues) <==> exists i :: 0 <= i < |issues| && FieldKey(issues[i].path) == k
  {
    if k in ErrorsFrom(issues) {
      var i :| 0 <= i < |issues| && FieldKey(issues[i].path) == k;
    }
  }

  /** Collects the messages of a rejected submission, one per field. */
  method CollectFieldErrors(issues: seq<Issue>) returns (errors: map<string, string>)
    ensures errors == ErrorsFrom(issues)
  {
    errors := map[];
    var i := 0;
    while i < |issues|
      invariant 0 <= i <= |issues|
      invariant errors == ErrorsFrom(issues[..i])
    {
      assert issues[..i + 1][..i] == issues[..i];
      errors := errors[FieldKey(issues[i].path) := issues[i].message];
      i := i + 1;
    }
    assert issues[..i] == issues;
  }

  // ---------------------------------------------------------------------------
  // Name capitalisation
  // ---------------------------------------------------------------------------

  function AsciiUpper(c: char): char {
    if 'a' <= c <= 'z' then (c as int - 32) as char else c
  }

  function AsciiLower(c: char): char {
    if 'A' <= c <= 'Z' then (c as int + 32) as char else c
  }

  function LowerAll(s: string): (r: string)
    ensures |r| == |s|
  {
    if s == [] then [] else [AsciiLower(s[0])] + LowerAll(s[1..])
  }

  /** `s.split(' ')`: the pieces between single spaces, empty ones included. */
  function Split(s: string): (r: seq<string>)
    ensures |r| >= 1
  {
    if s == [] then [""]
    else if s[0] == ' ' then [""] + Split(s[1..])
    else
      var rest := Split(s[1..]);
      [[s[0]] + rest[0]] + rest[1..]
  }

  /** `words.join(' ')`. */
  function Join(words: seq<string>): string
    requires |words| >= 1
  {
    if |words| == 1 then words[0] else words[0] + " " + Join(words[1..])
  }

  /** Joining the pieces of a split gives back the text. */
  lemma {:induction false} JoinSplit(s: string)
    ensures Join(Split(s)) == s
  {
    if s != [] {
      JoinSplit(s[1..]);
      var rest := Split(s[1..]);
      if s[0] != ' ' && |rest| > 1 {
        assert Join(Split(s)) == [s[0]] + rest[0] + " " + Join(rest[1..]);
      }
    }
  }

  /** The first character upper-cased, the rest lower-cased. */
  function CapitalizeWord(w: string): string {
    if w == "" then "" else [AsciiUpper(w[0])] + LowerAll(w[1..])
  }

  function CapitalizeAll(words: seq<string>): (r: seq<string>)
    ensures |r| == |words|
  {
    if words == [] then [] else [CapitalizeWord(words[0])] + CapitalizeAll(words[1..])
  }

  /** The name-change handler: every space-separated word capitalised. */
  function Capitalize(s: string): string {
    Join(CapitalizeAll(Split(s)))
  }

  /** Character by character: a character right after a space, or the first
      one when `atStart`, is upper-cased; every other one is lower-cased. */
  function CapitalizeFrom(s: string, atStart: bool): (r: string)
    ensures |r| == |s|
  {
    if s == [] then []
    else [if atStart then AsciiUpper(s[0]) else AsciiLower(s[0])] + CapitalizeFrom(s[1..], s[0] == ' ')
  }

  /** The words of a split, the first lower-cased when not `atStart`. */
  function Recased(words: seq<string>, atStart: bool): seq<string>
    requires |words| >= 1
  {
    [if atStart then CapitalizeWord(words[0]) else LowerAll(words[0])] + CapitalizeAll(words[1..])
  }

  lemma JoinPrepend(c: char, words: seq<string>)
    requires |words| >= 1
    ensures Join([[c] + words[0]] + words[1..]) == [c] + Join(words)
  {
    var ws := [[c] + words[0]] + words[1..];
    if |words| > 1 {
      assert ws[0] == [c] + words[0] && ws[1..] == words[1..];
      var rest := Join(words[1..]);
      assert Join(ws) == ([c] + words[0]) + " " + rest;
      assert Join(words) == words[0] + " " + rest;
      PrependSpaced(c, words[0], rest);
    }
  }

  lemma PrependSpaced(c: char, w: string, rest: string)
    ensures ([c] + w) + " " + rest == [c] + (w + " " + rest)
  {
  }

  lemma JoinSpace(words: seq<string>)
    requires |words| >= 1
    ensures Join([""] + words) == " " + Join(words)
  {
    var ws := [""] + words;
    assert ws[0] == "" && ws[1..] == words;
    assert Join(ws) == "" + " " + Join(words);
  }

  lemma {:induction false} RecasedIsCharacterwise(s: string, atStart: bool)
    ensures Join(Recased(Split(s), atStart)) == CapitalizeFrom(s, atStart)
  {
    if s != [] {
      var rest := Split(s[1..]);
      var c := if atStart then AsciiUpper(s[0]) else AsciiLower(s[0]);
      RecasedIsCharacterwise(s[1..], s[0] == ' ');
      if s[0] == ' ' {
        assert Recased(rest, true) == CapitalizeAll(rest);
        assert Recased(Split(s), atStart) == [""] + CapitalizeAll(rest);
        JoinSpace(CapitalizeAll(rest));
      } else {
        var w := [s[0]] + rest[0];
        assert w[1..] == rest[0];
        var lowered := Recased(rest, false);
        assert Recased(Split(s), atStart) == [[c] + lowered[0]] + lowered[1..];
        JoinPrepend(c, lowered);
      }
    }
  }

  /** The handler upper-cases exactly the characters at the start of the text
      or after a space and lower-cases all others. */
  lemma CapitalizeCharacterwise(s: string)
    ensures Capitalize(s) == CapitalizeFrom(s, true)
  {
    var words := Split(s);
    assert Recased(words, true) == CapitalizeAll(words);
    RecasedIsCharacterwise(s, true);
  }

  lemma {:induction false} CharacterwiseShape(s: string, atStart: bool)
    ensures forall i :: 0 <= i < |s| ==> (CapitalizeFrom(s, atStart)[i] == ' ' <==> s[i] == ' ')
    ensures CapitalizeFrom(CapitalizeFrom(s, atStart), atStart) == CapitalizeFrom(s, atStart)
  {
    if s != [] {
      CharacterwiseShape(s[1..], s[0] == ' ');
      var r := CapitalizeFrom(s, atStart);
      assert r[1..] == CapitalizeFrom(s[1..], s[0] == ' ');
      assert forall i :: 1 <= i < |s| ==> r[i] == r[1..][i - 1];
    }
  }

  /** Capitalising keeps the length and the spaces where they are (so the
      words stay the same in number and empty words stay empty), and doing it
      twice is doing it once. */
  lemma CapitalizeProperties(s: string)
    ensures |Capitalize(s)| == |s|
    ensures forall i :: 0 <= i < |s| ==> (Capitalize(s)[i] == ' ' <==> s[i] == ' ')
    ensures Capitalize(Capitalize(s)) == Capitalize(s)
  {
    CapitalizeCharacterwise(s);
    CapitalizeCharacterwise(Capitalize(s));
    CharacterwiseShape(s, true);
  }

  // ---------------------------------------------------------------------------
  // Submission
  // ---------------------------------------------------------------------------

  /** The value of a named form element, "" when the element is missing. */
  function ElementText(elements: map<string, string>, name: string): string {
    if name in elements then elements[name] else ""
  }

  /** The submitted data: each field is its element's text, or "" when the
      element is missing; an empty gender is left undefined. */
  function Submitted(elements: map<string, string>): (d: Demographics)
    ensures d.gender.None? <==> ElementText(elements, "gender") == ""
    ensures d.firstName == ElementText(elements, "firstName")
  {
    Demographics(
      ElementText(elements, "firstName"), ElementText(elements, "lastName"), ElementText(elements, "middleName"),
      ElementText(elements, "dateOfBirth"),
      if ElementText(elements, "gender") == "" then None else Some(ElementText(elements, "gender")),
      ElementText(elements, "ssnLastFour"), ElementText(elements, "email"),
      ElementText(elements, "phonePrimary"), ElementText(elements, "phoneSecondary"),
      ElementText(elements, "addressStreet"), ElementText(elements, "addressCity"),
      ElementText(elements, "addressState"), ElementText(elements, "addressZip"),
      ElementText(elements, "emergencyContactName"), ElementText(elements, "emergencyContactPhone"),
      ElementText(elements, "emergencyContactRelationship"))
  }

  /** The submitted data as a store section: every demographics key, with
      an undefined gender when none is chosen. */
  function AsSection(d: Demographics): (r: IntakeStore.Section)
    ensures r.Keys == IntakeStore.InitialDemographics.Keys
    ensures r["gender"] == (if d.gender.None? then IntakeStore.Undefined else IntakeStore.Text(d.gender.value))
  {
    map[
      "firstName" := IntakeStore.Text(d.firstName), "lastName" := IntakeStore.Text(d.lastName),
      "middleName" := IntakeStore.Text(d.middleName), "dateOfBirth" := IntakeStore.Text(d.dateOfBirth),
      "gender" := (if d.gender.None? then IntakeStore.Undefined else IntakeStore.Text(d.gender.value)),
      "ssnLastFour" := IntakeStore.Text(d.ssnLastFour), "email" := IntakeStore.Text(d.email),
      "phonePrimary" := IntakeStore.Text(d.phonePrimary), "phoneSecondary" := IntakeStore.Text(d.phoneSecondary),
      "addressStreet" := IntakeStore.Text(d.addressStreet), "addressCity" := IntakeStore.Text(d.addressCity),
      "addressState" := IntakeStore.Text(d.addressState), "addressZip" := IntakeStore.Text(d.addressZip),
      "emergencyContactName" := IntakeStore.Text(d.emergencyContactName),
      "emergencyContactPhone" := IntakeStore.Text(d.emergencyContactPhone),
      "emergencyContactRelationship" := IntakeStore.Text(d.emergencyContactRelationship)
    ]
  }

  /** Saving replaces every demographics field, so a store holding only the
      demographics keys ends up holding exactly the submitted data. */
  lemma SavedReplacesAll(section: IntakeStore.Section, d: Demographics)
    requires section.Keys <= IntakeStore.InitialDemographics.Keys
    ensures IntakeStore.Merge(section, AsSection(d)) == AsSection(d)
  {
  }

  class Form {
    /** The messages shown under the fields. */
    var errors: map<string, string>
    const store: IntakeStore.IntakeForm

    constructor (store: IntakeStore.IntakeForm)
      ensures this.store == store && errors == map[]
    {
      this.store := store;
      errors := map[];
    }

    /** Submits the form. Accepted data is merged into the store's
        demographics, the errors are cleared and `advanced` (the call to
        `onNext`) is true; rejected data leaves the store alone and shows
        each field's last message. */
    method HandleSubmit(elements: map<string, string>, isEmail: string -> bool, dateOk: string -> bool)
      returns (advanced: bool)
      modifies this, store
      ensures advanced <==> DemographicsValid(Submitted(elements), isEmail, dateOk)
      ensures advanced ==> errors == map[] && store.demographics == IntakeStore.Merge(old(store.demographics), AsSection(Submitted(elements)))
      ensures !advanced ==> errors == ErrorsFrom(DemographicsIssues(Submitted(elements), isEmail, dateOk))
                            && store.demographics == old(store.demographics)
      ensures store.insurance == old(store.insurance) && store.medicalHistory == old(store.medicalHistory)
      ensures store.currentStep == old(store.currentStep) && store.signature == old(store.signature)
      ensures store.sessionId == old(store.sessionId) && store.patientId == old(store.patientId)
    {
      advanced := Decide(Submitted(elements), isEmail, dateOk);
    }

    /** The checks and the two outcomes for the submitted data `data`. */
    method Decide(data: Demographics, isEmail: string -> bool, dateOk: string -> bool) returns (advanced: bool)
      modifies this, store
      ensures advanced <==> DemographicsValid(data, isEmail, dateOk)
      ensures advanced ==> errors == map[] && store.demographics == IntakeStore.Merge(old(store.demographics), AsSection(data))
      ensures !advanced ==> errors == ErrorsFrom(DemographicsIssues(data, isEmail, dateOk))
                            && store.demographics == old(store.demographics)
      ensures store.insurance == old(store.insurance) && store.medicalHistory == old(store.medicalHistory)
      ensures store.currentStep == old(store.currentStep) && store.signature == old(store.signature)
      ensures store.sessionId == old(store.sessionId) && store.patientId == old(store.patientId)
    {
      DemographicsAccepted(data, isEmail, dateOk);
      advanced := Settle(DemographicsIssues(data, isEmail, dateOk), AsSection(data));
    }

    /** The two outcomes of a submission: without issues the section is
        saved and the errors are cleared, otherwise the store is left alone
        and the issues' messages are shown. */
    method Settle(issues: seq<Issue>, section: IntakeStore.Section) returns (advanced: bool)
      modifies this, store
      ensures advanced <==> issues == []
      ensures advanced ==> errors == map[] && store.demographics == IntakeStore.Merge(old(store.demographics), section)
      ensures !advanced ==> errors == ErrorsFrom(issues) && store.demographics == old(store.demographics)
      ensures store.insurance == old(store.insurance) && store.medicalHistory == old(store.medicalHistory)
      ensures store.currentStep == old(store.currentStep) && store.signature == old(store.signature)
      ensures store.sessionId == old(store.sessionId) && store.patientId == old(store.patientId)
    {
      if issues == [] {
        store.SetDemographics(section);
        errors := map[];
        advanced := true;
      } else {
        errors := CollectFieldErrors(issues);
        advanced := false;
      }
    }
  }
}
