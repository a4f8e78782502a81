/**
 * `frontend/src/components/LeadForm.js`: the form's record and its error
 * messages, the per-field change handler, the client-side validation and
 * the submit gate.
 */
module LeadForm {
  import opened Wrappers
  import opened Text
  import opened LeadSchema

  /** The eight inputs, by their `name` attribute. */
  datatype FormField =
    FullName | PhoneNumber | Email | LinkedinProfile | Status | ProjectType | Requirement | Notes

  /** A new form: status `New`, project type `App`, every other field empty. */
  const DefaultForm := LeadFields("", "", "", "", "App", "", "", "New")

  function Get(f: LeadFields, k: FormField): string {
    match k
    case FullName => f.fullName
    case PhoneNumber => f.phoneNumber
    case Email => f.email
    case LinkedinProfile => f.linkedinProfile
    case Status => f.status
    case ProjectType => f.projectType
    case Requirement => f.requirement
    case Notes => f.notes
  }

  /** `{ ...prev, [name]: value }`. */
  function Set(f: LeadFields, k: FormField, v: string): (r: LeadFields)
    ensures Get(r, k) == v
    ensures forall j :: j != k ==> Get(r, j) == Get(f, j)
  {
    match k
    case FullName => f.(fullName := v)
    case PhoneNumber => f.(phoneNumber := v)
    case Email => f.(email := v)
    case LinkedinProfile => f.(linkedinProfile := v)
    case Status => f.(status := v)
    case ProjectType => f.(projectType := v)
    case Requirement => f.(requirement := v)
    case Notes => f.(notes := v)
  }

  /** The `errors` object: the message recorded under each field name, if
      any. A cleared message is kept as the empty string. */
  datatype Errors = Errors(
    fullName: Option<string>, phoneNumber: Option<string>, email: Option<string>,
    linkedinProfile: Option<string>, status: Option<string>, projectType: Option<string>,
    requirement: Option<string>, notes: Option<string>)

  const NoErrors := Errors(None, None, None, None, None, None, None, None)

  function ErrorAt(e: Errors, k: FormField): Option<string> {
    match k
    case FullName => e.fullName
    case PhoneNumber => e.phoneNumber
    case Email => e.email
    case LinkedinProfile => e.linkedinProfile
    case Status => e.status
    case ProjectType => e.projectType
    case Requirement => e.requirement
    case Notes => e.notes
  }

  /** `{ ...prev, [name]: message }`. */
  function WithError(e: Errors, k: FormField, m: string): (r: Errors)
    ensures ErrorAt(r, k) == Some(m)
    ensures forall j :: j != k ==> ErrorAt(r, j) == ErrorAt(e, j)
  {
    match k
    case FullName => e.(fullName := Some(m))
    case PhoneNumber => e.(phoneNumber := Some(m))
    case Email => e.(email := Some(m))
    case LinkedinProfile => e.(linkedinProfile := Some(m))
    case Status => e.(status := Some(m))
    case ProjectType => e.(projectType := Some(m))
    case Requirement => e.(requirement := Some(m))
    case Notes => e.(notes := Some(m))
  }

  /** The name's message, from its trimmed value. */
  function NameMessage(name: string): Option<string> {
    if name == [] then Some("Client name is required")
    else if |name| < 2 then Some("Name must be at least 2 characters")
    else None
  }

  /** The errors `validate` records for a form record: one message for each
      of the name, the two selects and the requirement, none for the others. */
  function FormErrors(f: LeadFields): Errors {
    NoErrors.(
      fullName := NameMessage(Trim(f.fullName)),
      status := if f.status == "" then Some("Status is required") else None,
      projectType := if f.projectType == "" then Some("Project type is required") else None,
      requirement := if Trim(f.requirement) == [] then Some("Project requirement is required") else None)
  }

  /** What the form rejects, field by field: a name shorter than two
      characters once trimmed, an empty status or project type, and a blank
      requirement; the other four fields are never checked. */
  lemma FormErrorsCases(f: LeadFields)
    ensures var e := FormErrors(f);
      && (e.fullName.Some? <==> |Trim(f.fullName)| < 2)
      && (e.fullName.Some? ==>
            e.fullName.value == if Trim(f.fullName) == [] then "Client name is required" else "Name must be at least 2 characters")
      && (e.status.Some? <==> f.status == "")
      && (e.projectType.Some? <==> f.projectType == "")
      && (e.requirement.Some? <==> Trim(f.requirement) == [])
      && e.phoneNumber == e.email == e.linkedinProfile == e.notes == None
  {
  }

  /** The form passes exactly when the trimmed name has two characters, the
      two selects are set and the requirement is not blank. */
  lemma FormValidIff(f: LeadFields)
    ensures FormErrors(f) == NoErrors <==>
      |Trim(f.fullName)| >= 2 && f.status != "" && f.projectType != "" &&
      exists k :: 0 <= k < |f.requirement| && !IsWhiteSpace(f.requirement[k])
  {
    FormErrorsCases(f);
    TrimEmptyIff(f.requirement);
  }

  /** An untouched new form is refused for its name and its requirement only. */
  lemma DefaultFormErrors()
    ensures FormErrors(DefaultForm) ==
      NoErrors.(fullName := Some("Client name is required"), requirement := Some("Project requirement is required"))
  {
    assert Trim(DefaultForm.fullName) == [];
    assert Trim(DefaultForm.requirement) == [];
  }

  /** The form's checks are weaker than the schema's: a status outside the
      seven values passes the form and fails the schema. */
  lemma FormLaxerThanSchema(f: LeadFields)
    requires FormErrors(f) == NoErrors
    requires f.status !in Statuses
    ensures !Conforms(Cast(f))
  {
    assert Cast(f).status == f.status;
  }

  /** The body of `validate`: starting from no errors, each failing check
      records its field's message in turn. */
  method CollectErrors(f: LeadFields) returns (newErrors: Errors)
    ensures newErrors == FormErrors(f)
  {
    newErrors := NoErrors;
    var name := Trim(f.fullName);
    if name == [] {
      newErrors := WithError(newErrors, FullName, "Client name is required");
    } else if |name| < 2 {
      newErrors := WithError(newErrors, FullName, "Name must be at least 2 characters");
    }
    if f.status == "" {
      newErrors := WithError(newErrors, Status, "Status is required");
    }
    if f.projectType == "" {
      newErrors := WithError(newErrors, ProjectType, "Project type is required");
    }
    if Trim(f.requirement) == [] {
      newErrors := WithError(newErrors, Requirement, "Project requirement is required");
    }
  }

  class Form {
    var formData: LeadFields
    var errors: Errors

    /** `initialData || { ...defaults }`, with no errors recorded. */
    constructor(initialData: Option<LeadFields>)
      ensures formData == (if initialData.Some? then initialData.value else DefaultForm)
      ensures errors == NoErrors
    {
      formData := if initialData.Some? then initialData.value else DefaultForm;
      errors := NoErrors;
    }

    /** `handleChange`: stores the value under the input's name and clears
        that field's message when it had a non-empty one. */
    method HandleChange(name: FormField, value: string)
      modifies this
      ensures formData == Set(old(formData), name, value)
      ensures errors == if ErrorAt(old(errors), name).Some? && ErrorAt(old(errors), name).value != ""
                        then WithError(old(errors), name, "") else old(errors)
      ensures ErrorAt(errors, name) == None || ErrorAt(errors, name) == Some("")
    {
      formData := Set(formData, name, value);
      var current := ErrorAt(errors, name);
      if current.Some? && current.value != "" {
        errors := WithError(errors, name, "");
      }
    }

    /** `validate`: replaces the recorded errors with the form's, and
        reports whether there were none. */
    method Validate() returns (ok: bool)
      modifies this`errors
      ensures errors == FormErrors(formData)
      ensures ok <==> errors == NoErrors
    {
      var newErrors := CollectErrors(formData);
      errors := newErrors;
      ok := newErrors == NoErrors;
    }

    /** `handleSubmit`: the form's record is handed on only when it validates. */
    method HandleSubmit() returns (submitted: Option<LeadFields>)
      modifies this`errors
      ensures errors == FormErrors(formData)
      ensures submitted == if FormErrors(formData) == NoErrors then Some(formData) else None
    {
      var ok := Validate();
      submitted := if ok then Some(formData) else None;
    }
  }
}
