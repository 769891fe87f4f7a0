// The three-step company registration screen of the mobile app: personal
// details, business details, then the password. The step counter moves
// forward only past a step that validates, and the registration payload is
// the form without the confirmation field.

module CompanyWizard {
  import opened Common
  import opened CompanyModel

  const OwnerNameRequired: string := "Owner name is required"
  const EmailRequired: string := "Email is required"
  const EmailInvalid: string := "Please enter a valid email"
  const PhoneRequired: string := "Phone number is required"
  const FssaiRequired: string := "FSSAI number is required"
  const PasswordRequired: string := "Password is required"
  const PasswordTooShort: string := "Password must be at least 6 characters"
  const ConfirmRequired: string := "Please confirm your password"
  const PasswordsDiffer: string := "Passwords do not match"

  /** The shortest password the screen accepts. */
  const MinPasswordLength: nat := 6

  datatype CompanyForm = CompanyForm(fssaiNumber: string, gstNumber: string, phoneNumber: string,
                                     alternateNumber: string, ownerName: string, email: string,
                                     logo: string, password: string, confirmPassword: string)

  const EmptyForm := CompanyForm("", "", "", "", "", "", "", "", "")

  datatype Field = FssaiNumber | GstNumber | PhoneNumber | AlternateNumber | OwnerName
                 | Email | Logo | Password | ConfirmPassword

  function Get(f: CompanyForm, field: Field): string
  {
    match field
    case FssaiNumber => f.fssaiNumber
    case GstNumber => f.gstNumber
    case PhoneNumber => f.phoneNumber
    case AlternateNumber => f.alternateNumber
    case OwnerName => f.ownerName
    case Email => f.email
    case Logo => f.logo
    case Password => f.password
    case ConfirmPassword => f.confirmPassword
  }

  /** `{ ...prev, [name]: value }`. */
  function With(f: CompanyForm, field: Field, value: string): (r: CompanyForm)
    ensures Get(r, field) == value
    ensures forall other :: other != field ==> Get(r, other) == Get(f, other)
  {
    match field
    case FssaiNumber => f.(fssaiNumber := value)
    case GstNumber => f.(gstNumber := value)
    case PhoneNumber => f.(phoneNumber := value)
    case AlternateNumber => f.(alternateNumber := value)
    case OwnerName => f.(ownerName := value)
    case Email => f.(email := value)
    case Logo => f.(logo := value)
    case Password => f.(password := value)
    case ConfirmPassword => f.(confirmPassword := value)
  }

  // ---------------------------------------------------------------------
  // The email pattern `^[^\s@]+@[^\s@]+\.[^\s@]+$`

  /** The whole string is `local@domain.tld`: three non-empty parts with no whitespace and no other `@`. */
  ghost predicate EmailShape(s: string)
  {
    exists b, c :: && 0 < b && b + 1 < c && c + 1 < |s| && s[b] == '@' && s[c] == '.'
                   && forall k :: 0 <= k < |s| && k != b ==> !IsSpace(s[k]) && s[k] != '@'
  }

  /** The test as a scan: the first `@` is not first, no later `@`, no whitespace, and a `.` inside the domain part. */
  function EmailMatches(s: string): bool
  {
    match IndexOf(s, '@')
    case None => false
    case Some(b) =>
      && 0 < b && b + 3 <= |s|
      && '@' !in s[b + 1..]
      && (forall k :: 0 <= k < |s| ==> !IsSpace(s[k]))
      && '.' in s[b + 2..|s| - 1]
  }

  lemma EmailMatchesSound(s: string)
    requires EmailMatches(s)
    ensures EmailShape(s)
  {
    var b := IndexOf(s, '@').value;
    var rest := s[b + 1..];
    var t := s[b + 2..|s| - 1];
    var j :| 0 <= j < |t| && t[j] == '.';
    var c := b + 2 + j;
    assert s[c] == '.';
    forall k | 0 <= k < |s| && k != b ensures !IsSpace(s[k]) && s[k] != '@' {
      if k > b {
        assert s[k] == rest[k - b - 1];
      }
    }
    assert 0 < b && b + 1 < c && c + 1 < |s| && s[b] == '@';
  }

  lemma EmailMatchesComplete(s: string)
    requires EmailShape(s)
    ensures EmailMatches(s)
  {
    var b, c :| && 0 < b && b + 1 < c && c + 1 < |s| && s[b] == '@' && s[c] == '.'
                && forall k :: 0 <= k < |s| && k != b ==> !IsSpace(s[k]) && s[k] != '@';
    assert IndexOf(s, '@') == Some(b);
    var t := s[b + 2..|s| - 1];
    assert t[c - b - 2] == '.';
    var rest := s[b + 1..];
    forall i | 0 <= i < |rest| ensures rest[i] != '@' {
      assert rest[i] == s[b + 1 + i];
    }
  }

  /** The scan accepts exactly the strings the pattern matches. */
  lemma EmailMatchesCorrect(s: string)
    ensures EmailMatches(s) <==> EmailShape(s)
  {
    if EmailMatches(s) {
      EmailMatchesSound(s);
    }
    if EmailShape(s) {
      EmailMatchesComplete(s);
    }
  }

  // ---------------------------------------------------------------------
  // Validation

  /** `passwordRequirements`, recomputed whenever either password field changes. */
  datatype Requirements = Requirements(length: bool, matches: bool)

  function PasswordRequirements(f: CompanyForm): (r: Requirements)
    ensures r.length <==> |f.password| >= MinPasswordLength
    ensures r.matches <==> f.password == f.confirmPassword && f.confirmPassword != ""
  {
    Requirements(|f.password| >= MinPasswordLength, f.password == f.confirmPassword && f.confirmPassword != "")
  }

  function PersonalErrors(f: CompanyForm): map<Field, string>
  {
    var e1 := if IsBlank(f.ownerName) then map[OwnerName := OwnerNameRequired] else map[];
    var e2 := if IsBlank(f.email) then e1[Email := EmailRequired] else e1;
    var e3 := if f.email != "" && !EmailMatches(f.email) then e2[Email := EmailInvalid] else e2;
    if IsBlank(f.phoneNumber) then e3[PhoneNumber := PhoneRequired] else e3
  }

  function SecurityErrors(f: CompanyForm): map<Field, string>
  {
    var req := PasswordRequirements(f);
    var e1 := if f.password == "" then map[Password := PasswordRequired]
              else if !req.length then map[Password := PasswordTooShort]
              else map[];
    if f.confirmPassword == "" then e1[ConfirmPassword := ConfirmRequired]
    else if !req.matches then e1[ConfirmPassword := PasswordsDiffer]
    else e1
  }

  /** The errors object `validateStep(step)` builds; a step other than 1, 2 or 3 has none. */
  function StepErrors(f: CompanyForm, step: int): (errors: map<Field, string>)
    ensures step == 1 ==>
      && (OwnerName in errors <==> IsBlank(f.ownerName))
      && (Email in errors <==> IsBlank(f.email) || !EmailShape(f.email))
      && (PhoneNumber in errors <==> IsBlank(f.phoneNumber))
      && errors.Keys <= {OwnerName, Email, PhoneNumber}
    ensures step == 1 && Email in errors ==>
      errors[Email] == (if f.email == "" then EmailRequired else EmailInvalid)
    ensures step == 2 ==> errors == (if IsBlank(f.fssaiNumber) then map[FssaiNumber := FssaiRequired] else map[])
    ensures step == 3 ==>
      && (Password in errors <==> |f.password| < MinPasswordLength)
      && (ConfirmPassword in errors <==> f.confirmPassword == "" || f.confirmPassword != f.password)
      && errors.Keys <= {Password, ConfirmPassword}
    ensures step == 3 && Password in errors ==>
      errors[Password] == (if f.password == "" then PasswordRequired else PasswordTooShort)
    ensures step == 3 && ConfirmPassword in errors ==>
      errors[ConfirmPassword] == (if f.confirmPassword == "" then ConfirmRequired else PasswordsDiffer)
    ensures step !in {1, 2, 3} ==> errors == map[]
  {
    EmailMatchesCorrect(f.email);
    if step == 1 then PersonalErrors(f)
    else if step == 2 then (if IsBlank(f.fssaiNumber) then map[FssaiNumber := FssaiRequired] else map[])
    else if step == 3 then SecurityErrors(f)
    else map[]
  }

  /** The registration body: every field but the confirmation, present even when empty. */
  function Payload(f: CompanyForm): (body: CompanyFields)
    ensures body.password == Some(f.password) && body.email == Some(f.email)
    ensures body.fssaiNumber == Some(f.fssaiNumber) && body.ownerName == Some(f.ownerName)
    ensures body.phoneNumber == Some(f.phoneNumber)
    ensures body.gstNumber == Some(f.gstNumber) && body.alternateNumber == Some(f.alternateNumber)
    ensures body.logo == Some(f.logo)
  {
    CompanyFields(Some(f.fssaiNumber), Some(f.gstNumber), Some(f.phoneNumber), Some(f.alternateNumber),
                  Some(f.ownerName), Some(f.email), Some(f.logo), Some(f.password))
  }

  /**
   * A form that passes all three steps gives a body the server's schema
   * accepts once the password is replaced by a (non-empty) hash.
   */
  lemma {:induction false} ValidatedPayloadIsStorable(f: CompanyForm, hashed: string, id: Id, now: int)
    requires StepErrors(f, 1) == map[] && StepErrors(f, 2) == map[] && StepErrors(f, 3) == map[]
    requires hashed != ""
    ensures ValidCompany(NewCompany(Payload(f), hashed, id, now))
    ensures |f.password| >= MinPasswordLength && f.confirmPassword == f.password
  {
    assert OwnerName !in StepErrors(f, 1) && PhoneNumber !in StepErrors(f, 1) && Email !in StepErrors(f, 1);
    assert FssaiNumber !in StepErrors(f, 2);
    assert Password !in StepErrors(f, 3) && ConfirmPassword !in StepErrors(f, 3);
    assert f.fssaiNumber != "" by { if f.fssaiNumber == "" { assert IsBlank(f.fssaiNumber); } }
  }

  class Wizard {
    var formData: CompanyForm
    var currentStep: int
    var validationErrors: map<Field, string>
    /** The banner message (`error`) and the flag that disables the submit button (`loading`). */
    var error: string
    var loading: bool

    ghost predicate Valid()
      reads this
    {
      1 <= currentStep <= 3
    }

    constructor()
      ensures Valid() && formData == EmptyForm && currentStep == 1 && validationErrors == map[]
      ensures error == "" && !loading
    {
      formData := EmptyForm;
      currentStep := 1;
      validationErrors := map[];
      error := "";
      loading := false;
    }

    /** `handleChange`: one field takes the value and only that field's error is blanked. */
    method HandleChange(field: Field, value: string)
      modifies this
      ensures formData == With(old(formData), field, value)
      ensures validationErrors ==
        (if field in old(validationErrors) && old(validationErrors)[field] != ""
         then old(validationErrors)[field := ""] else old(validationErrors))
      ensures currentStep == old(currentStep) && error == old(error) && loading == old(loading)
    {
      formData := With(formData, field, value);
      if field in validationErrors && validationErrors[field] != "" {
        validationErrors := validationErrors[field := ""];
      }
    }

    method ValidateStep(step: int) returns (ok: bool)
      modifies this
      ensures validationErrors == StepErrors(formData, step)
      ensures ok <==> validationErrors == map[]
      ensures formData == old(formData) && currentStep == old(currentStep)
      ensures error == old(error) && loading == old(loading)
    {
      validationErrors := StepErrors(formData, step);
      ok := |validationErrors| == 0;
    }

    /** `nextStep`: forward by one, at most to 3, and only past a step that validates. */
    method NextStep()
      requires Valid()
      modifies this
      ensures Valid()
      ensures validationErrors == StepErrors(formData, old(currentStep))
      ensures currentStep == if StepErrors(formData, old(currentStep)) == map[]
                             then Min(old(currentStep) + 1, 3) else old(currentStep)
      ensures formData == old(formData) && error == old(error) && loading == old(loading)
    {
      var ok := ValidateStep(currentStep);
      if ok {
        currentStep := Min(currentStep + 1, 3);
      }
    }

    /** `prevStep`: back by one, never below 1. */
    method PrevStep()
      requires Valid()
      modifies this
      ensures Valid()
      ensures currentStep == Max(old(currentStep) - 1, 1)
      ensures formData == old(formData) && validationErrors == old(validationErrors)
      ensures error == old(error) && loading == old(loading)
    {
      currentStep := Max(currentStep - 1, 1);
    }

    /** `handleSubmit`: clears the banner, raises `loading`, checks the password
        step only, then sends the payload. The button is disabled while
        `loading` holds, so it can be pressed only when the flag is down. A
        failed check returns with the flag still raised. */
    method Submit() returns (sent: Option<CompanyFields>)
      requires !loading
      modifies this
      ensures validationErrors == StepErrors(formData, 3)
      ensures sent.None? <==> StepErrors(formData, 3) != map[]
      ensures sent.Some? ==> sent.value == Payload(formData)
      ensures formData == old(formData) && currentStep == old(currentStep)
      ensures error == "" && loading
    {
      error := "";
      loading := true;
      var ok := ValidateStep(3);
      if !ok {
        return None;
      }
      sent := Some(Payload(formData));
    }

    /** The end of the `createCompany` call that `Submit` started: a truthy
        answer lowers the flag (and leaves the screen), a thrown error lowers
        it and shows the failure banner, and a falsy answer leaves both alone. */
    method Settle(outcome: RegisterOutcome)
      modifies this
      ensures outcome.Registered? ==> !loading && error == old(error)
      ensures outcome.NoAnswer? ==> loading == old(loading) && error == old(error)
      ensures outcome.Failed? ==> !loading && error == RegisterFailed
      ensures formData == old(formData) && currentStep == old(currentStep) && validationErrors == old(validationErrors)
    {
      match outcome
      case Registered =>
        loading := false;
      case NoAnswer =>
      case Failed =>
        error := RegisterFailed;
        loading := false;
    }
  }

  /** How the registration request ends: a truthy answer, a falsy one, or a thrown error. */
  datatype RegisterOutcome = Registered | NoAnswer | Failed

  const RegisterFailed := "Failed to create company. Please try again."

  /** A submit whose password step fails sends nothing and leaves the button
      disabled; editing fields and moving between steps keeps it disabled,
      and no request is outstanding whose end could lower the flag again. */
  method FailedSubmitLocksOut() returns (w: Wizard, sent: Option<CompanyFields>)
    ensures fresh(w) && sent.None? && w.loading
    ensures w.formData == With(EmptyForm, Password, "secret1")
  {
    w := new Wizard();
    sent := w.Submit();
    assert Password in StepErrors(EmptyForm, 3);
    w.HandleChange(Password, "secret1");
    w.NextStep();
    w.PrevStep();
  }

  function Min(a: int, b: int): int { if a <= b then a else b }
  function Max(a: int, b: int): int { if a >= b then a else b }
}
