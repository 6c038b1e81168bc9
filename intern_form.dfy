/**
  The intern-creation modal of the frontend: the supervisor ("encadreur")
  options resolved on opening, the required-field check, the mapping of the
  form to the creation request, and the reconciliation of the creation
  outcome with the form state.

  The remote services, the session storage, the caller's role and the
  outcome of each asynchronous call are parameters; every call the component
  makes outwards (a service call, a callback of its parent, an alert, the
  error reporter) is appended to a ghost log of effects.
*/
module InternFormWorkflow {
  import opened Basics

  const EncadreurRole := "ENCADREUR"
  const UserExistCode := "USER_EXIST"
  const RequiredFieldsMessage := "Tous les champs sont obligatoires"
  const EmailExistsMessage := "Cet email existe déjà. Veuillez en choisir un autre."
  const LoadErrorContext := "Erreur lors du chargement des encadreurs"
  const CreateErrorContext := "Erreur lors de la création du stagiaire"

  // ---------------------------------------------------------------------
  // capitalizeFirstLetter (ASCII case mapping)
  // ---------------------------------------------------------------------

  predicate IsAsciiLower(c: char) { 'a' <= c <= 'z' }

  predicate IsAsciiUpper(c: char) { 'A' <= c <= 'Z' }

  function ToUpper(c: char): (u: char)
    ensures !IsAsciiLower(u)
    ensures IsAsciiLower(c) ==> IsAsciiUpper(u)
    ensures !IsAsciiLower(c) ==> u == c
  {
    if IsAsciiLower(c) then (c as int - 32) as char else c
  }

  function ToLower(c: char): (l: char)
    ensures !IsAsciiUpper(l)
    ensures IsAsciiUpper(c) ==> IsAsciiLower(l)
    ensures !IsAsciiUpper(c) ==> l == c
  {
    if IsAsciiUpper(c) then (c as int + 32) as char else c
  }

  /** String.prototype.toLowerCase, restricted to ASCII letters. */
  function LowerAll(s: string): (r: string)
    ensures |r| == |s|
    ensures forall i :: 0 <= i < |s| ==> r[i] == ToLower(s[i])
  {
    if s == [] then [] else [ToLower(s[0])] + LowerAll(s[1..])
  }

  /** capitalizeFirstLetter: the first character upper-cased, the rest lower-cased. */
  function Capitalize(s: string): (r: string)
    ensures s == "" ==> r == ""
    ensures |r| == |s|
    ensures s != "" ==> r[0] == ToUpper(s[0]) && !IsAsciiLower(r[0])
    ensures forall i :: 0 < i < |s| ==> r[i] == ToLower(s[i]) && !IsAsciiUpper(r[i])
  {
    if s == "" then "" else [ToUpper(s[0])] + LowerAll(s[1..])
  }

  /** Capitalizing an already capitalized string changes nothing. */
  lemma CapitalizeIdempotent(s: string)
    ensures Capitalize(Capitalize(s)) == Capitalize(s)
  {
    var r := Capitalize(s);
    var t := Capitalize(r);
    if s != "" {
      assert t[0] == r[0];
      forall i | 0 < i < |r| ensures t[i] == r[i] {
        assert ToLower(ToLower(s[i])) == ToLower(s[i]);
      }
    }
  }

  // ---------------------------------------------------------------------
  // Form state, the creation request and the required-field check
  // ---------------------------------------------------------------------

  /** The component's formData; encadreurId 0 means "no supervisor chosen". */
  datatype FormData = FormData(
    nom: string,
    prenom: string,
    email: string,
    phone: string,
    departement: string,
    school: string,
    startDate: string,
    endDate: string,
    encadreurId: int)

  /** The initial state of formData, and the state it is reset to after a creation. */
  const EmptyForm := FormData("", "", "", "", "", "", "", "", 0)

  /** The eight text inputs of the form. */
  datatype TextField = Nom | Prenom | Email | Phone | Departement | School | StartDate | EndDate

  function TextOf(f: FormData, field: TextField): string
  {
    match field
    case Nom => f.nom
    case Prenom => f.prenom
    case Email => f.email
    case Phone => f.phone
    case Departement => f.departement
    case School => f.school
    case StartDate => f.startDate
    case EndDate => f.endDate
  }

  /** The state update of a text input's onChange handler: `{ ...prev, field: value }`. */
  function WithText(f: FormData, field: TextField, value: string): (r: FormData)
    ensures TextOf(r, field) == value
    ensures forall other :: other != field ==> TextOf(r, other) == TextOf(f, other)
    ensures r.encadreurId == f.encadreurId
  {
    match field
    case Nom => f.(nom := value)
    case Prenom => f.(prenom := value)
    case Email => f.(email := value)
    case Phone => f.(phone := value)
    case Departement => f.(departement := value)
    case School => f.(school := value)
    case StartDate => f.(startDate := value)
    case EndDate => f.(endDate := value)
  }

  /** The guard of handleSubmit: some text field is empty or no supervisor is chosen. */
  function MissingRequired(f: FormData): (missing: bool)
    ensures !missing ==> (forall field :: TextOf(f, field) != "") && f.encadreurId != 0
    ensures f == EmptyForm ==> missing
  {
    f.nom == "" || f.prenom == "" || f.email == "" || f.phone == "" ||
    f.departement == "" || f.school == "" || f.startDate == "" || f.endDate == "" ||
    f.encadreurId == 0
  }

  /** The guard rejects a form exactly when one of its text fields is empty or its supervisor is unset. */
  lemma MissingRequiredIff(f: FormData)
    ensures MissingRequired(f) <==> (exists field :: TextOf(f, field) == "") || f.encadreurId == 0
  {
    if f.nom == "" { assert TextOf(f, Nom) == ""; }
    if f.prenom == "" { assert TextOf(f, Prenom) == ""; }
    if f.email == "" { assert TextOf(f, Email) == ""; }
    if f.phone == "" { assert TextOf(f, Phone) == ""; }
    if f.departement == "" { assert TextOf(f, Departement) == ""; }
    if f.school == "" { assert TextOf(f, School) == ""; }
    if f.startDate == "" { assert TextOf(f, StartDate) == ""; }
    if f.endDate == "" { assert TextOf(f, EndDate) == ""; }
  }

  /** Clearing any single text field makes the form fail the required-field check. */
  lemma ClearedFieldIsRejected(f: FormData, field: TextField)
    ensures MissingRequired(WithText(f, field, ""))
  {
    MissingRequiredIff(WithText(f, field, ""));
  }

  /** The shape sent to internService.createIntern. */
  datatype InternRequest = InternRequest(
    email: string,
    firstName: string,
    lastName: string,
    phone: string,
    school: string,
    department: string,
    startDate: string,
    endDate: string,
    encadreurId: int)

  /** The inverse renaming, from a request back to the form it came from. */
  function FromRequest(q: InternRequest): FormData
  {
    FormData(q.lastName, q.firstName, q.email, q.phone, q.department, q.school,
             q.startDate, q.endDate, q.encadreurId)
  }

  /**
    requestData: a renaming of the form's fields; `Number(encadreurId)` is the
    identity on the integer the model keeps.
  */
  function ToRequest(f: FormData): (q: InternRequest)
    ensures FromRequest(q) == f
    // a form that passed the required-field check yields a request with no empty field
    ensures !MissingRequired(f) ==>
              q.email != "" && q.firstName != "" && q.lastName != "" && q.phone != ""
              && q.school != "" && q.department != "" && q.startDate != "" && q.endDate != ""
              && q.encadreurId != 0
  {
    InternRequest(f.email, f.prenom, f.nom, f.phone, f.school, f.departement,
                  f.startDate, f.endDate, f.encadreurId)
  }

  /** Every request shape is the request of exactly one form: the renaming is a bijection. */
  lemma RequestRoundTrip(q: InternRequest)
    ensures ToRequest(FromRequest(q)) == q
  {
  }

  // ---------------------------------------------------------------------
  // Supervisor resolution (loadEncadreurs)
  // ---------------------------------------------------------------------

  /** A supervisor record as the directory service returns it. */
  datatype Encadreur = Encadreur(encadreurId: int, prenom: string, nom: string)

  /**
    An element of the `encadreurs` list: the directory's records, or, in the
    supervisor branch, the bare stored id that the code puts in the list.
  */
  datatype EncadreurEntry = Record(encadreur: Encadreur) | BareId(id: int)

  /** Why a remote call or the session read failed; errorCode is `error.response.data.error`. */
  datatype Failure = ServiceFailure(errorCode: Option<string>) | SessionReadFailure

  /** The settled outcome of the directory fetch. */
  datatype Fetch = Fetched(data: seq<Encadreur>) | FetchFailed(failure: Failure)

  /**
    What reading the session gives: no item (null or ""), a read that throws
    (JSON.parse rejects the text, or the text parses to null so reading
    `.encadreurId` throws), or the `encadreurId` of the parsed blob.
  */
  datatype StoredUser = NoItem | Unreadable | Parsed(encadreurId: Option<int>)

  /** `authUser?.role === "ENCADREUR"`; it also disables the supervisor select. */
  function IsEncadreurRole(role: Option<string>): (locked: bool)
    ensures role.None? ==> !locked
    ensures locked ==> role.value == EncadreurRole
  {
    role == Some(EncadreurRole)
  }

  /** The stored supervisor id when it is present and truthy (non-zero). */
  function ForcedEncadreur(stored: StoredUser): (forced: Option<int>)
    ensures forced.Some? ==> forced.value != 0 && stored == Parsed(forced)
    ensures forced.None? ==> !stored.Parsed? || stored.encadreurId in {None, Some(0)}
  {
    if stored.Parsed? && stored.encadreurId.Some? && stored.encadreurId.value != 0
    then stored.encadreurId else None
  }

  /** `setEncadreurs(data)`: the fetched list, element for element. */
  function Records(data: seq<Encadreur>): (r: seq<EncadreurEntry>)
    ensures |r| == |data|
    ensures forall i :: 0 <= i < |data| ==> r[i] == Record(data[i])
  {
    if data == [] then [] else [Record(data[0])] + Records(data[1..])
  }

  /** The form, the option list and the error reported (if any) after loadEncadreurs settles. */
  datatype Resolution = Resolution(form: FormData, options: seq<EncadreurEntry>, reported: Option<Failure>)

  function Resolve(role: Option<string>, fetch: Fetch, stored: StoredUser,
                   form: FormData, options: seq<EncadreurEntry>): (r: Resolution)
    // only the supervisor field of the form can change, and only for the supervisor role
    ensures r.form == form.(encadreurId := r.form.encadreurId)
    ensures r.form != form ==> IsEncadreurRole(role) && r.form.encadreurId != 0
                               && r.options == [BareId(r.form.encadreurId)]
    // any failure leaves both the form and the option list as they were
    ensures r.reported.Some? ==> r.form == form && r.options == options
    ensures fetch.FetchFailed? ==> r.reported == Some(fetch.failure)
    // other roles: the fetched list exactly, nothing pre-selected
    ensures fetch.Fetched? && !IsEncadreurRole(role) ==>
              r == Resolution(form, Records(fetch.data), None)
    // the supervisor role: the stored id, when truthy, is the only option and is selected
    ensures fetch.Fetched? && IsEncadreurRole(role) && ForcedEncadreur(stored).Some? ==>
              r == Resolution(form.(encadreurId := ForcedEncadreur(stored).value),
                              [BareId(ForcedEncadreur(stored).value)], None)
    ensures fetch.Fetched? && IsEncadreurRole(role) && ForcedEncadreur(stored).None? ==>
              r.form == form && r.options == options
              && (r.reported.Some? <==> stored.Unreadable?)
    ensures fetch.Fetched? && IsEncadreurRole(role) && stored.Unreadable? ==>
              r.reported == Some(SessionReadFailure)
  {
    match fetch
    case FetchFailed(failure) => Resolution(form, options, Some(failure))
    case Fetched(data) =>
      if !IsEncadreurRole(role) then Resolution(form, Records(data), None)
      else if stored.Unreadable? then Resolution(form, options, Some(SessionReadFailure))
      else match ForcedEncadreur(stored)
        case None => Resolution(form, options, None)
        case Some(id) => Resolution(form.(encadreurId := id), [BareId(id)], None)
  }

  // ---------------------------------------------------------------------
  // Submission outcomes and the effect log
  // ---------------------------------------------------------------------

  /** The settled outcome of internService.createIntern. */
  datatype Creation = Created | CreateFailed(failure: Failure)

  /** `error?.response?.data?.error === "USER_EXIST"`. */
  function IsUserExist(failure: Failure): (conflict: bool)
    ensures conflict ==> failure.ServiceFailure? && failure.errorCode == Some(UserExistCode)
    ensures failure == SessionReadFailure || failure == ServiceFailure(None) ==> !conflict
  {
    failure == ServiceFailure(Some(UserExistCode))
  }

  /** A call the component makes outside itself. */
  datatype Effect =
    | FetchEncadreurs                               // encadreurService.getAllEncadreurs()
    | CreateIntern(request: InternRequest)          // internService.createIntern(requestData)
    | Alert(message: string)                        // alert(...)
    | ReportError(failure: Failure, context: string) // handleApiError(error, context)
    | SubmitCallback(values: FormData)              // onSubmit(formData)
    | CloseCallback                                 // onClose()

  function ReportedEffects(reported: Option<Failure>, context: string): seq<Effect>
  {
    if reported.Some? then [ReportError(reported.value, context)] else []
  }


  // ---------------------------------------------------------------------
  // The component
  // ---------------------------------------------------------------------

  class InternFormModal {
    /** The isOpen prop; the form exists (is rendered) only while it is true. */
    var isOpen: bool
    var formData: FormData
    var encadreurs: seq<EncadreurEntry>
    var loading: bool
    var emailError: string
    /**
      The formData that the pending handleSubmit closure captured when the
      submit event fired; None when no submission awaits createIntern.
    */
    var pendingSubmit: Option<FormData>
    ghost var effects: seq<Effect>

    /**
      A submission is pending exactly while `loading` is set, and the form it
      captured is the one whose request was sent to createIntern.
    */
    ghost predicate Valid()
      reads this
    {
      (loading <==> pendingSubmit.Some?)
      && (pendingSubmit.Some? ==> CreateIntern(ToRequest(pendingSubmit.value)) in effects)
    }

    /** Mounting: the state defaults, then the isOpen effect's first run. */
    constructor (open: bool, role: Option<string>, fetch: Fetch, stored: StoredUser)
      ensures Valid()
      ensures isOpen == open && !loading && emailError == "" && pendingSubmit.None?
      ensures !open ==> formData == EmptyForm && encadreurs == [] && effects == []
      ensures open ==>
        var r := Resolve(role, fetch, stored, EmptyForm, []);
        formData == r.form && encadreurs == r.options
        && effects == [FetchEncadreurs] + ReportedEffects(r.reported, LoadErrorContext)
    {
      isOpen := open;
      formData := EmptyForm;
      encadreurs := [];
      loading := false;
      emailError := "";
      pendingSubmit := None;
      effects := [];
      new;
      if open {
        LoadEncadreurs(role, fetch, stored);
        emailError := "";
      }
    }

    /** loadEncadreurs, with the directory fetch and the session read settled. */
    method LoadEncadreurs(role: Option<string>, fetch: Fetch, stored: StoredUser)
      requires Valid()
      modifies this
      ensures Valid()
      ensures var r := Resolve(role, fetch, stored, old(formData), old(encadreurs));
        formData == r.form && encadreurs == r.options
        && effects == old(effects) + [FetchEncadreurs] + ReportedEffects(r.reported, LoadErrorContext)
      ensures isOpen == old(isOpen) && loading == old(loading) && emailError == old(emailError)
      ensures pendingSubmit == old(pendingSubmit)
    {
      effects := effects + [FetchEncadreurs];
      match fetch {
        case FetchFailed(failure) =>
          effects := effects + [ReportError(failure, LoadErrorContext)];
        case Fetched(data) =>
          if IsEncadreurRole(role) {
            match stored {
              case NoItem =>
              case Unreadable =>
                effects := effects + [ReportError(SessionReadFailure, LoadErrorContext)];
              case Parsed(current) =>
                if current.Some? && current.value != 0 {
                  encadreurs := [BareId(current.value)];
                  formData := formData.(encadreurId := current.value);
                }
            }
          } else {
            encadreurs := Records(data);
          }
      }
    }

    /**
      A new value of the isOpen prop. The effect runs only when the value
      changes, and does its work only when the modal opens. A pending
      submission is not cancelled.
    */
    method IsOpenChanged(open: bool, role: Option<string>, fetch: Fetch, stored: StoredUser)
      requires Valid()
      modifies this
      ensures Valid()
      ensures isOpen == open && loading == old(loading) && pendingSubmit == old(pendingSubmit)
      ensures !(open && !old(isOpen)) ==>
        formData == old(formData) && encadreurs == old(encadreurs)
        && emailError == old(emailError) && effects == old(effects)
      ensures open && !old(isOpen) ==>
        var r := Resolve(role, fetch, stored, old(formData), old(encadreurs));
        emailError == "" && formData == r.form && encadreurs == r.options
        && effects == old(effects) + [FetchEncadreurs] + ReportedEffects(r.reported, LoadErrorContext)
    {
      var opening := open && !isOpen;
      isOpen := open;
      if opening {
        LoadEncadreurs(role, fetch, stored);
        emailError := "";
      }
    }

    /** The onChange handler of a text input; inputs stay enabled while a submission is pending. */
    method EditText(field: TextField, value: string)
      requires isOpen
      modifies this
      ensures formData == WithText(old(formData), field, value)
      ensures isOpen == old(isOpen) && encadreurs == old(encadreurs) && loading == old(loading)
      ensures emailError == old(emailError) && effects == old(effects)
      ensures pendingSubmit == old(pendingSubmit)
    {
      formData := WithText(formData, field, value);
    }

    /** The onChange handler of the supervisor select: `Number(e.target.value)`. */
    method SelectEncadreur(id: int)
      requires isOpen
      modifies this
      ensures formData == old(formData).(encadreurId := id)
      ensures isOpen == old(isOpen) && encadreurs == old(encadreurs) && loading == old(loading)
      ensures emailError == old(emailError) && effects == old(effects)
      ensures pendingSubmit == old(pendingSubmit)
    {
      formData := formData.(encadreurId := id);
    }

    /**
      handleSubmit up to the await of createIntern: the email error is
      cleared, the form is checked, and a complete form is captured and sent
      with the loading flag raised. Returns the request sent, if any. The
      submit button is disabled while loading, so no submission is pending.
    */
    method StartSubmit() returns (sent: Option<InternRequest>)
      requires Valid() && isOpen && !loading
      modifies this
      ensures Valid()
      ensures emailError == ""
      ensures isOpen == old(isOpen) && formData == old(formData) && encadreurs == old(encadreurs)
      ensures sent.None? <==> MissingRequired(formData)
      ensures sent.None? ==>
        !loading && pendingSubmit.None? && effects == old(effects) + [Alert(RequiredFieldsMessage)]
      ensures sent.Some? ==>
        sent.value == ToRequest(formData) && loading && pendingSubmit == Some(formData)
        && effects == old(effects) + [CreateIntern(sent.value)]
    {
      emailError := "";
      if MissingRequired(formData) {
        effects := effects + [Alert(RequiredFieldsMessage)];
        return None;
      }
      loading := true;
      pendingSubmit := Some(formData);
      var request := ToRequest(formData);
      effects := effects + [CreateIntern(request)];
      sent := Some(request);
    }

    /**
      handleSubmit after createIntern settles: success, USER_EXIST, or any
      other failure. onSubmit receives the captured form, whatever was typed
      since.
    */
    method FinishSubmit(outcome: Creation)
      requires Valid() && loading
      modifies this
      ensures Valid()
      ensures !loading && pendingSubmit.None?
      ensures isOpen == old(isOpen) && encadreurs == old(encadreurs)
      ensures outcome.Created? ==>
        var submitted := old(pendingSubmit).value;
        CreateIntern(ToRequest(submitted)) in old(effects)
        && formData == EmptyForm && emailError == old(emailError)
        && effects == old(effects) + [SubmitCallback(submitted), CloseCallback]
      ensures outcome.CreateFailed? && IsUserExist(outcome.failure) ==>
        formData == old(formData) && emailError == EmailExistsMessage && effects == old(effects)
      ensures outcome.CreateFailed? && !IsUserExist(outcome.failure) ==>
        formData == old(formData) && emailError == old(emailError)
        && effects == old(effects) + [ReportError(outcome.failure, CreateErrorContext)]
    {
      var submitted := pendingSubmit.value;
      match outcome {
        case Created =>
          effects := effects + [SubmitCallback(submitted)];
          formData := EmptyForm;
          effects := effects + [CloseCallback];
        case CreateFailed(failure) =>
          if IsUserExist(failure) {
            emailError := EmailExistsMessage;
          } else {
            effects := effects + [ReportError(failure, CreateErrorContext)];
          }
      }
      loading := false;
      pendingSubmit := None;
    }

    /** handleSubmit as one step, with createIntern's outcome given. */
    method HandleSubmit(outcome: Creation) returns (attempted: bool)
      requires Valid() && isOpen && !loading
      modifies this
      ensures Valid()
      ensures isOpen == old(isOpen) && encadreurs == old(encadreurs)
      ensures !loading && pendingSubmit.None?
      ensures attempted <==> !MissingRequired(old(formData))
      ensures !attempted ==>
        formData == old(formData) && emailError == ""
        && effects == old(effects) + [Alert(RequiredFieldsMessage)]
      ensures attempted && outcome.Created? ==>
        formData == EmptyForm && emailError == ""
        && effects == old(effects) + [CreateIntern(ToRequest(old(formData))),
                                      SubmitCallback(old(formData)), CloseCallback]
      ensures attempted && outcome.CreateFailed? ==>
        formData == old(formData)
        && (IsUserExist(outcome.failure) ==>
              emailError == EmailExistsMessage
              && effects == old(effects) + [CreateIntern(ToRequest(old(formData)))])
        && (!IsUserExist(outcome.failure) ==>
              emailError == ""
              && effects == old(effects) + [CreateIntern(ToRequest(old(formData))),
                                            ReportError(outcome.failure, CreateErrorContext)])
    {
      var sent := StartSubmit();
      attempted := sent.Some?;
      if attempted {
        FinishSubmit(outcome);
      }
    }
  }

  /**
    An administrator opens the modal, the directory lists two supervisors,
    the user fills every field, picks supervisor 2 and submits; while the
    creation is pending the user edits the last name, and the creation then
    succeeds.
  */
  method AdminCreatesIntern()
  {
    var first := Encadreur(1, "Aina", "Rakoto");
    var second := Encadreur(2, "Hery", "Rabe");
    var modal := new InternFormModal(true, Some("ADMIN"), Fetched([first, second]), NoItem);
    assert modal.encadreurs == [Record(first), Record(second)];
    modal.EditText(Nom, "Rasoa");
    modal.EditText(Prenom, "Lova");
    modal.EditText(Email, "lova@example.org");
    modal.EditText(Phone, "0340000000");
    modal.EditText(Departement, "Informatique");
    modal.EditText(School, "ESTI");
    modal.EditText(StartDate, "2025-01-06");
    modal.EditText(EndDate, "2025-06-27");
    modal.SelectEncadreur(2);
    var entered := modal.formData;
    assert entered.encadreurId == 2 && !MissingRequired(entered);
    var sent := modal.StartSubmit();
    assert sent == Some(ToRequest(entered)) && modal.loading;
    modal.EditText(Nom, "Z");
    modal.FinishSubmit(Created);
    assert modal.formData == EmptyForm && !modal.loading;
    assert modal.effects[|modal.effects| - 2] == SubmitCallback(entered);
    assert modal.effects[|modal.effects| - 1] == CloseCallback;
  }
}
