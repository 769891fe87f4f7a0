// The party edit screen: a six-field form loaded from the stored party,
// per-field validation messages, change detection against the loaded
// values, and the save guard.

module PartyEdit {
  import opened Common
  import opened PartyModel

  const NameRequired: string := "Party name is required"
  const PhoneRequired: string := "Phone number is required"
  const PhoneInvalid: string := "Please enter a valid 10-digit phone number"
  const PlaceRequired: string := "Place is required"
  const EmailInvalid: string := "Please enter a valid email address"

  datatype PartyForm = PartyForm(name: string, phoneNumber: string, place: string,
                                 address: string, email: string, gstNumber: string)

  const EmptyForm := PartyForm("", "", "", "", "", "")

  datatype Field = Name | PhoneNumber | Place | Address | Email | GstNumber

  function Get(f: PartyForm, field: Field): string
  {
    match field
    case Name => f.name
    case PhoneNumber => f.phoneNumber
    case Place => f.place
    case Address => f.address
    case Email => f.email
    case GstNumber => f.gstNumber
  }

  /** `{ ...formData, [field]: value }`. */
  function With(f: PartyForm, field: Field, value: string): (r: PartyForm)
    ensures Get(r, field) == value
    ensures forall other :: other != field ==> Get(r, other) == Get(f, other)
  {
    match field
    case Name => f.(name := value)
    case PhoneNumber => f.(phoneNumber := value)
    case Place => f.(place := value)
    case Address => f.(address := value)
    case Email => f.(email := value)
    case GstNumber => f.(gstNumber := value)
  }

  /** The form filled from a stored party; fields the party lacks become empty. */
  function FromParty(p: Party): (r: PartyForm)
    ensures r.name == p.name && r.phoneNumber == p.phoneNumber && r.place == p.place
    ensures r.address == "" && r.email == "" && r.gstNumber == ""
  {
    PartyForm(p.name, p.phoneNumber, p.place, "", "", "")
  }

  // ---------------------------------------------------------------------
  // The phone and email patterns

  /** `/^\d{10}$/` on the number with its whitespace removed. */
  predicate TenDigitPhone(s: string)
  {
    var digits := RemoveWhitespace(s);
    |digits| == 10 && AllDigits(digits)
  }

  /** An `@` at `b` with a non-space character before it. */
  ghost predicate AtWitness(s: string, b: int)
  {
    0 < b < |s| && s[b] == '@' && !IsSpace(s[b - 1])
  }

  /** A `.` at `c`, with only non-space characters (at least one) between `b` and it and one after it. */
  ghost predicate DotWitness(s: string, b: int, c: int)
  {
    && 0 <= b && b + 1 < c && c + 1 < |s|
    && s[c] == '.' && !IsSpace(s[c + 1])
    && forall k :: b < k < c ==> !IsSpace(s[k])
  }

  /** Somewhere in `s`: `\S+@\S+\.\S+` (the pattern is not anchored). */
  ghost predicate LooseEmail(s: string)
  {
    exists b, c :: AtWitness(s, b) && DotWitness(s, b, c)
  }

  /** Scans the non-space run after the `@` at `b`, from `c`, for a usable dot. */
  function DotAfter(s: string, b: nat, c: nat): bool
    decreases |s| - c
  {
    if c + 1 >= |s| then false
    else if IsSpace(s[c]) then false
    else if s[c] == '.' && c >= b + 2 && !IsSpace(s[c + 1]) then true
    else DotAfter(s, b, c + 1)
  }

  /** Tries every `@` from position `b` on. */
  function AtFrom(s: string, b: nat): bool
    decreases |s| - b
  {
    if b >= |s| then false
    else (b >= 1 && s[b] == '@' && !IsSpace(s[b - 1]) && DotAfter(s, b, b + 1)) || AtFrom(s, b + 1)
  }

  /** The email test the screen runs. */
  function EmailMatches(s: string): bool
  {
    AtFrom(s, 0)
  }

  lemma {:induction false} DotAfterCorrect(s: string, b: nat, c: nat)
    requires b < c <= |s|
    requires forall k :: b < k < c ==> !IsSpace(s[k])
    ensures DotAfter(s, b, c) <==> exists d :: c <= d && DotWitness(s, b, d)
    decreases |s| - c
  {
    if c + 1 >= |s| {
    } else if IsSpace(s[c]) {
      assert !DotWitness(s, b, c);
    } else if s[c] == '.' && c >= b + 2 && !IsSpace(s[c + 1]) {
      assert DotWitness(s, b, c);
    } else {
      DotAfterCorrect(s, b, c + 1);
      if DotAfter(s, b, c + 1) {
        var d :| c + 1 <= d && DotWitness(s, b, d);
        assert c <= d;
      } else {
        assert !DotWitness(s, b, c);
      }
    }
  }

  lemma {:induction false} AtFromCorrect(s: string, b: nat)
    ensures AtFrom(s, b) <==> exists a, d :: b <= a && AtWitness(s, a) && DotWitness(s, a, d)
    decreases |s| - b
  {
    if b < |s| {
      AtFromCorrect(s, b + 1);
      DotAfterCorrect(s, b, b + 1);
      if AtFrom(s, b) {
        if b >= 1 && s[b] == '@' && !IsSpace(s[b - 1]) && DotAfter(s, b, b + 1) {
          var d :| b + 1 <= d && DotWitness(s, b, d);
          assert AtWitness(s, b);
        } else {
          var a, d :| b + 1 <= a && AtWitness(s, a) && DotWitness(s, a, d);
          assert b <= a;
        }
      } else {
        assert forall d :: !(AtWitness(s, b) && DotWitness(s, b, d));
      }
    }
  }

  /** The scanner accepts exactly the strings the pattern matches somewhere in. */
  lemma EmailMatchesCorrect(s: string)
    ensures EmailMatches(s) <==> LooseEmail(s)
  {
    AtFromCorrect(s, 0);
  }

  /** Two sample addresses: an ordinary one passes, one with nothing after the dot does not. */
  lemma EmailExamples()
    ensures EmailMatches("ravi@shop.in")
    ensures !EmailMatches("ravi@shop.")
  {
    assert DotAfter("ravi@shop.in", 4, 9);
    assert !DotAfter("ravi@shop.", 4, 5);
  }

  // ---------------------------------------------------------------------
  // Validation

  /** The errors object `validateForm` builds: one message per failing field. */
  function FormErrors(f: PartyForm): (errors: map<Field, string>)
    ensures Name in errors <==> IsBlank(f.name)
    ensures PhoneNumber in errors <==> IsBlank(f.phoneNumber) || !TenDigitPhone(f.phoneNumber)
    ensures Place in errors <==> IsBlank(f.place)
    ensures Email in errors <==> f.email != "" && !LooseEmail(f.email)
    ensures Address !in errors && GstNumber !in errors
    ensures Name in errors ==> errors[Name] == NameRequired
    ensures PhoneNumber in errors ==>
      errors[PhoneNumber] == (if IsBlank(f.phoneNumber) then PhoneRequired else PhoneInvalid)
    ensures Place in errors ==> errors[Place] == PlaceRequired
    ensures Email in errors ==> errors[Email] == EmailInvalid
  {
    EmailMatchesCorrect(f.email);
    var e0: map<Field, string> := map[];
    var e1 := if IsBlank(f.name) then e0[Name := NameRequired] else e0;
    var e2 := if IsBlank(f.phoneNumber) then e1[PhoneNumber := PhoneRequired]
              else if !TenDigitPhone(f.phoneNumber) then e1[PhoneNumber := PhoneInvalid]
              else e1;
    var e3 := if IsBlank(f.place) then e2[Place := PlaceRequired] else e2;
    if f.email != "" && !EmailMatches(f.email) then e3[Email := EmailInvalid] else e3
  }

  /** `validateForm` succeeds exactly when every rule holds. */
  lemma NoErrorsIffValid(f: PartyForm)
    ensures FormErrors(f) == map[] <==>
      && !IsBlank(f.name)
      && !IsBlank(f.phoneNumber) && TenDigitPhone(f.phoneNumber)
      && !IsBlank(f.place)
      && (f.email == "" || LooseEmail(f.email))
  {
    var e := FormErrors(f);
    if e != map[] {
      var k :| k in e;
    }
  }

  /** Whether the form differs from what was loaded (before any load, every field differs). */
  function Changed(f: PartyForm, original: Option<PartyForm>): (r: bool)
    ensures r <==> original.None? || exists field :: Get(f, field) != Get(original.value, field)
  {
    if original.None? then true
    else
      var o := original.value;
      assert f != o ==> (exists field :: Get(f, field) != Get(o, field)) by {
        if f != o {
          if f.name != o.name { assert Get(f, Name) != Get(o, Name); }
          else if f.phoneNumber != o.phoneNumber { assert Get(f, PhoneNumber) != Get(o, PhoneNumber); }
          else if f.place != o.place { assert Get(f, Place) != Get(o, Place); }
          else if f.address != o.address { assert Get(f, Address) != Get(o, Address); }
          else if f.email != o.email { assert Get(f, Email) != Get(o, Email); }
          else { assert Get(f, GstNumber) != Get(o, GstNumber); }
        }
      }
      f != o
  }

  datatype SaveOutcome = Invalid | NoChanges | Update(id: Id, data: PartyForm)

  class EditScreen {
    const id: Id
    var formData: PartyForm
    var originalData: Option<PartyForm>
    var errors: map<Field, string>
    var hasChanges: bool

    constructor(id: Id)
      ensures this.id == id
      ensures formData == EmptyForm && originalData == None && errors == map[] && !hasChanges
    {
      this.id := id;
      formData := EmptyForm;
      originalData := None;
      errors := map[];
      hasChanges := false;
    }

    /** The fetched party fills both the form and the copy changes are measured against. */
    method Load(p: Party)
      modifies this
      ensures formData == FromParty(p) && originalData == Some(FromParty(p))
      ensures errors == old(errors) && hasChanges == old(hasChanges)
    {
      formData := FromParty(p);
      originalData := Some(formData);
    }

    /** Typing into one field: only that field changes, `hasChanges` is recomputed, that field's error is blanked. */
    method InputChange(field: Field, value: string)
      modifies this
      ensures formData == With(old(formData), field, value)
      ensures hasChanges == Changed(formData, originalData)
      ensures errors == (if field in old(errors) && old(errors)[field] != "" then old(errors)[field := ""]
                         else old(errors))
      ensures originalData == old(originalData)
    {
      formData := With(formData, field, value);
      hasChanges := Changed(formData, originalData);
      if field in errors && errors[field] != "" {
        errors := errors[field := ""];
      }
    }

    /** `validateForm`: replaces the errors with the current form's and reports whether there are none. */
    method ValidateForm() returns (valid: bool)
      modifies this
      ensures errors == FormErrors(formData)
      ensures valid <==> errors == map[]
      ensures formData == old(formData) && originalData == old(originalData) && hasChanges == old(hasChanges)
    {
      errors := FormErrors(formData);
      valid := |errors| == 0;
    }

    /** `handleSave`: no update request unless the form validates and something changed. */
    method Save() returns (outcome: SaveOutcome)
      modifies this
      ensures errors == FormErrors(formData)
      ensures outcome.Invalid? <==> FormErrors(formData) != map[]
      ensures outcome.NoChanges? <==> FormErrors(formData) == map[] && !hasChanges
      ensures outcome.Update? ==> outcome == Update(id, formData)
      ensures formData == old(formData) && originalData == old(originalData) && hasChanges == old(hasChanges)
    {
      var valid := ValidateForm();
      if !valid {
        return Invalid;
      }
      if !hasChanges {
        return NoChanges;
      }
      outcome := Update(id, formData);
    }
  }
}
