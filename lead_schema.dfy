/**
 * The lead record of `backend/models/Lead.js`: its eight user fields, the
 * casting the schema applies to them (trim, lower-case), the field
 * validators with their messages, and the pre-save hook that title-cases
 * the full name.
 */
module LeadSchema {
  import opened Wrappers
  import opened Text

  /** The seven pipeline stages a status may take. */
  const Statuses: seq<string> := ["New", "Contacted", "Followed Up", "On Hold", "Dropped", "Meeting", "Done"]

  /** The three kinds of project a lead may ask for. */
  const ProjectTypes: seq<string> := ["App", "Website", "IOT"]

  /** The user-supplied part of a lead. Text fields are plain strings, and so
      are the two enumerations, because an update that bypasses the
      validators can store any string in them. */
  datatype LeadFields = LeadFields(
    fullName: string,
    phoneNumber: string,
    email: string,
    linkedinProfile: string,
    projectType: string,
    requirement: string,
    notes: string,
    status: string)

  /** A stored lead: the fields plus the identifier and the two timestamps
      that the database and the `timestamps` option maintain. */
  datatype Lead = Lead(id: string, fields: LeadFields, createdAt: nat, updatedAt: nat)

  // ---------------------------------------------------------------------
  // Casting: the `trim` and `lowercase` setters
  // ---------------------------------------------------------------------

  /** The value the schema's setters give each field: every text field is
      trimmed, the email is also lower-cased; the two enumerations have no
      setter. */
  function Cast(f: LeadFields): (r: LeadFields)
    ensures r.fullName == Trim(f.fullName) && r.phoneNumber == Trim(f.phoneNumber)
    ensures r.email == Lower(Trim(f.email)) && r.linkedinProfile == Trim(f.linkedinProfile)
    ensures r.requirement == Trim(f.requirement) && r.notes == Trim(f.notes)
    ensures r.projectType == f.projectType && r.status == f.status
  {
    LeadFields(
      Trim(f.fullName), Trim(f.phoneNumber), Lower(Trim(f.email)), Trim(f.linkedinProfile),
      f.projectType, Trim(f.requirement), Trim(f.notes), f.status)
  }

  // ---------------------------------------------------------------------
  // The two patterns
  // ---------------------------------------------------------------------

  predicate IsDigit(c: char) { '0' <= c <= '9' }

  /** `\w`: an ASCII letter, a digit or the underscore. */
  predicate IsWordChar(c: char) { 'a' <= c <= 'z' || 'A' <= c <= 'Z' || IsDigit(c) || c == '_' }

  /** The characters of the phone pattern's tail class `[-\s./0-9]`. */
  predicate IsPhoneTailChar(c: char) { c == '-' || IsWhiteSpace(c) || c == '.' || c == '/' || IsDigit(c) }

  predicate AllDigits(s: string) { forall k :: 0 <= k < |s| ==> IsDigit(s[k]) }

  predicate AllPhoneTail(s: string) { forall k :: 0 <= k < |s| ==> IsPhoneTailChar(s[k]) }

  /** The phone pattern `^[+]?[(]?[0-9]{1,4}[)]?[-\s./0-9]*$`.
      A leading `+` can only be matched by `[+]?` (nothing after it accepts
      a `+`), and likewise a `(` after it by `[(]?`; so those two are taken
      exactly when present. The matcher then tries every length from one to
      four for the digit group, followed by an optional `)` and the tail. */
  predicate PhoneMatch(s: string) {
    var a := if |s| > 0 && s[0] == '+' then 1 else 0;
    var b := if a < |s| && s[a] == '(' then a + 1 else a;
    PhoneFrom(s, b, 1) || PhoneFrom(s, b, 2) || PhoneFrom(s, b, 3) || PhoneFrom(s, b, 4)
  }

  /** From offset `b`: `k` digits, an optional `)`, then only tail characters. */
  predicate PhoneFrom(s: string, b: nat, k: nat) {
    && b + k <= |s|
    && AllDigits(s[b..b + k])
    && (AllPhoneTail(s[b + k..]) || (b + k < |s| && s[b + k] == ')' && AllPhoneTail(s[b + k + 1..])))
  }

  /** `\w+([\.-]?\w+)*`: word characters in which a single `.` or `-` may
      stand between two word characters. */
  predicate WordChain(s: string) {
    && |s| > 0
    && IsWordChar(s[0])
    && IsWordChar(s[|s| - 1])
    && forall i :: 0 < i < |s| - 1 ==>
         IsWordChar(s[i]) || ((s[i] == '.' || s[i] == '-') && IsWordChar(s[i - 1]) && IsWordChar(s[i + 1]))
  }

  /** The domain part `\w+([\.-]?\w+)*(\.\w{2,3})+`. A chain followed by
      several `.xy` groups is itself a chain followed by one group, so it is
      enough to look for one final group of two or three word characters. */
  predicate DomainMatch(d: string) {
    DomainEndingIn(d, 2) || DomainEndingIn(d, 3)
  }

  /** `d` is a chain, a `.`, and a final group of `k` word characters. */
  predicate DomainEndingIn(d: string, k: nat) {
    && k + 2 <= |d|
    && d[|d| - k - 1] == '.'
    && (forall j :: |d| - k <= j < |d| ==> IsWordChar(d[j]))
    && WordChain(d[..|d| - k - 1])
  }

  /** The email pattern `^\w+([\.-]?\w+)*@\w+([\.-]?\w+)*(\.\w{2,3})+$`. */
  predicate EmailMatch(s: string) {
    exists i | 0 <= i < |s| :: s[i] == '@' && WordChain(s[..i]) && DomainMatch(s[i + 1..])
  }

  // ---------------------------------------------------------------------
  // Validators, one message per path (the first validator that fails)
  // ---------------------------------------------------------------------

  /** `fullName`: required, then `minlength` 2, then `maxlength` 100. */
  function FullNameError(n: string): (r: Option<string>)
    ensures r == None <==> 2 <= |n| <= 100
    ensures n == [] ==> r == Some("Client name is required")
  {
    if n == [] then Some("Client name is required")
    else if |n| < 2 then Some("Name must be at least 2 characters long")
    else if |n| > 100 then Some("Name cannot exceed 100 characters")
    else None
  }

  /** `phoneNumber`: the pattern, which an empty value passes. */
  function PhoneError(p: string): (r: Option<string>)
    ensures r == None <==> (p == [] || PhoneMatch(p))
  {
    if p != [] && !PhoneMatch(p) then Some("Please provide a valid phone number") else None
  }

  /** `email`: the pattern, which an empty value passes. */
  function EmailError(e: string): (r: Option<string>)
    ensures r == None <==> (e == [] || EmailMatch(e))
  {
    if e != [] && !EmailMatch(e) then Some("Please provide a valid email address") else None
  }

  /** `projectType`: required, then the enumeration `{VALUE} is not a valid project type`. */
  function ProjectTypeError(t: string): (r: Option<string>)
    ensures r == None <==> t in ProjectTypes
  {
    if t == [] then Some("Project type is required")
    else if t !in ProjectTypes then Some(t + " is not a valid project type")
    else None
  }

  /** `requirement`: required, then `maxlength` 2000. */
  function RequirementError(q: string): (r: Option<string>)
    ensures r == None <==> 1 <= |q| <= 2000
  {
    if q == [] then Some("Project requirement is required")
    else if |q| > 2000 then Some("Requirement cannot exceed 2000 characters")
    else None
  }

  /** `notes`: `maxlength` 2000. */
  function NotesError(n: string): (r: Option<string>)
    ensures r == None <==> |n| <= 2000
  {
    if |n| > 2000 then Some("Notes cannot exceed 2000 characters") else None
  }

  /** `status`: the enumeration `{VALUE} is not a valid status`. */
  function StatusError(s: string): (r: Option<string>)
    ensures r == None <==> s in Statuses
  {
    if s !in Statuses then Some(s + " is not a valid status") else None
  }

  /** The message of one path, if it failed. */
  function MessageOf(e: Option<string>): (r: seq<string>)
    ensures r == [] <==> e == None
    ensures |r| <= 1
  {
    if e.Some? then [e.value] else []
  }

  /** Everything the schema demands of a lead, stated field by field. */
  predicate Conforms(f: LeadFields) {
    && 2 <= |f.fullName| <= 100
    && (f.phoneNumber == [] || PhoneMatch(f.phoneNumber))
    && (f.email == [] || EmailMatch(f.email))
    && f.projectType in ProjectTypes
    && 1 <= |f.requirement| <= 2000
    && |f.notes| <= 2000
    && f.status in Statuses
  }

  /** Document validation: the messages of the failing paths, in schema
      order; there are none exactly when the lead conforms. */
  function Validate(f: LeadFields): (r: seq<string>)
    ensures r == [] <==> Conforms(f)
    ensures |r| <= 7
  {
    MessageOf(FullNameError(f.fullName)) + MessageOf(PhoneError(f.phoneNumber)) +
    MessageOf(EmailError(f.email)) + MessageOf(ProjectTypeError(f.projectType)) +
    MessageOf(RequirementError(f.requirement)) + MessageOf(NotesError(f.notes)) +
    MessageOf(StatusError(f.status))
  }

  /** Every failing path's message is among the reported ones. */
  lemma ValidateReportsEachPath(f: LeadFields)
    ensures FullNameError(f.fullName).Some? ==> FullNameError(f.fullName).value in Validate(f)
    ensures PhoneError(f.phoneNumber).Some? ==> PhoneError(f.phoneNumber).value in Validate(f)
    ensures EmailError(f.email).Some? ==> EmailError(f.email).value in Validate(f)
    ensures ProjectTypeError(f.projectType).Some? ==> ProjectTypeError(f.projectType).value in Validate(f)
    ensures RequirementError(f.requirement).Some? ==> RequirementError(f.requirement).value in Validate(f)
    ensures NotesError(f.notes).Some? ==> NotesError(f.notes).value in Validate(f)
    ensures StatusError(f.status).Some? ==> StatusError(f.status).value in Validate(f)
  {
    MessagesReport(FullNameError(f.fullName), PhoneError(f.phoneNumber), EmailError(f.email),
      ProjectTypeError(f.projectType), RequirementError(f.requirement), NotesError(f.notes),
      StatusError(f.status), Validate(f));
  }

  /** Each present message is in the concatenation of the seven. */
  lemma MessagesReport(e1: Option<string>, e2: Option<string>, e3: Option<string>, e4: Option<string>,
                       e5: Option<string>, e6: Option<string>, e7: Option<string>, r: seq<string>)
    requires r == MessageOf(e1) + MessageOf(e2) + MessageOf(e3) + MessageOf(e4) + MessageOf(e5) + MessageOf(e6) + MessageOf(e7)
    ensures e1.Some? ==> e1.value in r
    ensures e2.Some? ==> e2.value in r
    ensures e3.Some? ==> e3.value in r
    ensures e4.Some? ==> e4.value in r
    ensures e5.Some? ==> e5.value in r
    ensures e6.Some? ==> e6.value in r
    ensures e7.Some? ==> e7.value in r
  {
  }

  /** Validation only looks at the length of the full name, so the two
      lead records that differ only in a same-length full name validate alike. */
  lemma ValidateDependsOnNameLength(f: LeadFields, name: string)
    requires |name| == |f.fullName|
    ensures Validate(f.(fullName := name)) == Validate(f)
  {
    assert FullNameError(name) == FullNameError(f.fullName);
  }

  // ---------------------------------------------------------------------
  // Title-casing of the full name
  // ---------------------------------------------------------------------

  /** One word: first character upper-cased, the rest lower-cased. */
  function CapitalizeWord(w: string): (r: string)
    ensures |r| == |w|
  {
    if w == [] then [] else [UpperChar(w[0])] + Lower(w[1..])
  }

  function CapitalizeAll(ws: seq<string>): (r: seq<string>)
    ensures |r| == |ws|
  {
    if ws == [] then [] else [CapitalizeWord(ws[0])] + CapitalizeAll(ws[1..])
  }

  /** `split(' ').map(capitalise).join(' ')`. */
  function TitleCase(s: string): string {
    Join(CapitalizeAll(Split(s, ' ')), ' ')
  }

  /** Character-wise reference: a character that starts a word (at the start
      or after a space) is upper-cased, any other one lower-cased. */
  function TitleCaseFrom(s: string, atStart: bool): (r: string)
    ensures |r| == |s|
  {
    if s == [] then []
    else if s[0] == ' ' then [' '] + TitleCaseFrom(s[1..], true)
    else [if atStart then UpperChar(s[0]) else LowerChar(s[0])] + TitleCaseFrom(s[1..], false)
  }

  lemma JoinPrefixFirst(c: char, w: string, ws: seq<string>)
    ensures Join([[c] + w] + ws, ' ') == [c] + Join([w] + ws, ' ')
  {
    JoinConsFirst(c, [w] + ws, ' ');
    assert ([w] + ws)[0] == w && ([w] + ws)[1..] == ws;
  }

  lemma {:induction false} TitleCaseFromSplit(s: string)
    ensures Join(CapitalizeAll(Split(s, ' ')), ' ') == TitleCaseFrom(s, true)
    ensures Join([Lower(Split(s, ' ')[0])] + CapitalizeAll(Split(s, ' ')[1..]), ' ') == TitleCaseFrom(s, false)
  {
    if s == [] {
    } else {
      var ws := Split(s[1..], ' ');
      TitleCaseFromSplit(s[1..]);
      var c := s[0];
      if c == ' ' {
        assert Split(s, ' ') == [[]] + ws;
        assert CapitalizeAll([[]] + ws) == [[]] + CapitalizeAll(ws);
        assert ([[]] + ws)[1..] == ws;
      } else {
        assert Split(s, ' ') == [[c] + ws[0]] + ws[1..];
        var r := [[c] + ws[0]] + ws[1..];
        assert r[1..] == ws[1..];
        assert CapitalizeWord([c] + ws[0]) == [UpperChar(c)] + Lower(ws[0]) by {
          assert ([c] + ws[0])[1..] == ws[0];
        }
        assert CapitalizeAll(r) == [[UpperChar(c)] + Lower(ws[0])] + CapitalizeAll(ws[1..]);
        JoinPrefixFirst(UpperChar(c), Lower(ws[0]), CapitalizeAll(ws[1..]));
        assert Lower([c] + ws[0]) == [LowerChar(c)] + Lower(ws[0]);
        JoinPrefixFirst(LowerChar(c), Lower(ws[0]), CapitalizeAll(ws[1..]));
        assert CapitalizeAll(ws) == [CapitalizeWord(ws[0])] + CapitalizeAll(ws[1..]);
      }
    }
  }

  /** `TitleCase` agrees with the character-wise reference. */
  lemma TitleCaseCharwise(s: string)
    ensures TitleCase(s) == TitleCaseFrom(s, true)
  {
    TitleCaseFromSplit(s);
  }

  /** What `TitleCaseFrom` does at each position. */
  lemma {:induction false} TitleCaseFromAt(s: string, atStart: bool, i: nat)
    requires i < |s|
    ensures TitleCaseFrom(s, atStart)[i] ==
      if s[i] == ' ' then ' '
      else if (i == 0 && atStart) || (i > 0 && s[i - 1] == ' ') then UpperChar(s[i])
      else LowerChar(s[i])
  {
    if i > 0 {
      TitleCaseFromAt(s[1..], s[0] == ' ', i - 1);
      assert s[1..][i - 1] == s[i];
      if i > 1 {
        assert s[1..][i - 2] == s[i - 1];
      }
    }
  }

  /** Title-casing keeps the length of the name. */
  lemma TitleCasePreservesLength(s: string)
    ensures |TitleCase(s)| == |s|
  {
    TitleCaseCharwise(s);
  }

  /** Title-casing upper-cases exactly the first character of each word,
      lower-cases every other character, and keeps the spaces where they are. */
  lemma TitleCaseAt(s: string, i: nat)
    requires i < |s|
    ensures |TitleCase(s)| == |s|
    ensures TitleCase(s)[i] ==
      if s[i] == ' ' then ' '
      else if i == 0 || s[i - 1] == ' ' then UpperChar(s[i])
      else LowerChar(s[i])
    ensures TitleCase(s)[i] == ' ' <==> s[i] == ' '
  {
    TitleCaseCharwise(s);
    TitleCaseFromAt(s, true, i);
  }

  lemma {:induction false} TitleCaseFromIdempotent(s: string, atStart: bool)
    ensures TitleCaseFrom(TitleCaseFrom(s, atStart), atStart) == TitleCaseFrom(s, atStart)
  {
    if s != [] {
      var t := TitleCaseFrom(s, atStart);
      if s[0] == ' ' {
        TitleCaseFromIdempotent(s[1..], true);
        assert t[1..] == TitleCaseFrom(s[1..], true);
      } else {
        TitleCaseFromIdempotent(s[1..], false);
        assert t[1..] == TitleCaseFrom(s[1..], false);
        assert t[0] != ' ';
      }
    }
  }

  /** Title-casing an already title-cased name changes nothing. */
  lemma TitleCaseIdempotent(s: string)
    ensures TitleCase(TitleCase(s)) == TitleCase(s)
  {
    TitleCaseCharwise(s);
    TitleCaseCharwise(TitleCase(s));
    TitleCaseFromIdempotent(s, true);
  }

  // ---------------------------------------------------------------------
  // The pre-save hook
  // ---------------------------------------------------------------------

  /** A document about to be saved, with the one piece of change tracking
      the hook consults: whether `fullName` was modified. */
  class LeadDocument {
    var fields: LeadFields
    var fullNameModified: bool

    /** A new document: every path it was given counts as modified. */
    constructor New(f: LeadFields)
      ensures fields == f && fullNameModified
    {
      fields := f;
      fullNameModified := true;
    }

    /** A document read back from the database: nothing is modified yet. */
    constructor Loaded(f: LeadFields)
      ensures fields == f && !fullNameModified
    {
      fields := f;
      fullNameModified := false;
    }

    /** The `pre('save')` hook: title-cases `fullName` when it was modified,
        and touches no other field. */
    method PreSave()
      modifies this`fields
      ensures old(fullNameModified) ==> fields == old(fields).(fullName := TitleCase(old(fields).fullName))
      ensures !old(fullNameModified) ==> fields == old(fields)
    {
      if fullNameModified {
        fields := fields.(fullName := TitleCase(fields.fullName));
      }
    }
  }

  /** `new Lead(fields).save()` once validation has passed: a fresh document
      has every path modified, so its pre-save hook title-cases the name and
      the stored record differs from the given one in that field alone. */
  method SaveNew(f: LeadFields) returns (stored: LeadFields)
    ensures stored == f.(fullName := TitleCase(f.fullName))
  {
    var doc := new LeadDocument.New(f);
    doc.PreSave();
    stored := doc.fields;
  }
}
