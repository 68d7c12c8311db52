/** The e-mail test of the user form, /^[^\s@]+@[^\s@]+\.[^\s@]+$/, and what it accepts. */
module EmailPattern {
  import opened Text

  // The pattern as the regular expression reads.

  /** `[^\s@]+` minus the `+`: no whitespace and no '@'. */
  predicate NoSpaceOrAt(s: string) {
    forall k :: 0 <= k < |s| ==> !IsWhitespace(s[k]) && s[k] != '@'
  }

  /** `s` splits as a non-empty run, '@' at `i`, a non-empty run, '.' at `j`, a non-empty run. */
  predicate PatternSplit(s: string, i: int, j: int) {
    0 < i && i + 1 < j && j + 1 < |s| && s[i] == '@' && s[j] == '.' &&
    NoSpaceOrAt(s[..i]) && NoSpaceOrAt(s[i + 1..j]) && NoSpaceOrAt(s[j + 1..])
  }

  predicate MatchesEmailPattern(s: string) {
    exists i, j | 0 <= i < |s| && 0 <= j < |s| :: PatternSplit(s, i, j)
  }

  // The same language, described by what it demands of the address.

  /** The only '@' of `s` is at `i`. */
  predicate OnlyAt(s: string, i: int) {
    forall k :: 0 <= k < |s| && s[k] == '@' ==> k == i
  }

  /** `d` has a '.' that is neither its first nor its last character. */
  predicate DotInside(d: string) {
    exists k | 1 <= k < |d| - 1 :: d[k] == '.'
  }

  /** Exactly one '@', no whitespace, a non-empty local part and a domain with an inner '.'. */
  predicate WellFormedEmail(s: string) {
    (forall k :: 0 <= k < |s| ==> !IsWhitespace(s[k])) &&
    exists i | 0 < i < |s| :: s[i] == '@' && OnlyAt(s, i) && DotInside(s[i + 1..])
  }

  /** The pattern accepts exactly the well-formed addresses. */
  lemma EmailPatternCharacterised(s: string)
    ensures MatchesEmailPattern(s) <==> WellFormedEmail(s)
  {
    if MatchesEmailPattern(s) {
      var i, j :| 0 <= i < |s| && 0 <= j < |s| && PatternSplit(s, i, j);
      forall k | 0 <= k < |s| ensures !IsWhitespace(s[k]) && (s[k] == '@' ==> k == i) {
        if k < i { assert s[k] == s[..i][k]; }
        else if i < k < j { assert s[k] == s[i + 1..j][k - i - 1]; }
        else if j < k { assert s[k] == s[j + 1..][k - j - 1]; }
      }
      var d := s[i + 1..];
      assert d[j - i - 1] == '.';
      assert DotInside(d);
    }
    if WellFormedEmail(s) {
      var i :| 0 < i < |s| && s[i] == '@' && OnlyAt(s, i) && DotInside(s[i + 1..]);
      var d := s[i + 1..];
      var k :| 1 <= k < |d| - 1 && d[k] == '.';
      var j := i + 1 + k;
      assert s[j] == '.';
      var local, mid, top := s[..i], s[i + 1..j], s[j + 1..];
      forall m | 0 <= m < |local| ensures !IsWhitespace(local[m]) && local[m] != '@' {
        assert local[m] == s[m];
      }
      forall m | 0 <= m < |mid| ensures !IsWhitespace(mid[m]) && mid[m] != '@' {
        assert mid[m] == s[i + 1 + m];
      }
      forall m | 0 <= m < |top| ensures !IsWhitespace(top[m]) && top[m] != '@' {
        assert top[m] == s[j + 1 + m];
      }
      assert PatternSplit(s, i, j);
    }
  }

  /** The address is not trimmed before the test, so a leading or trailing space fails it. */
  lemma SurroundingSpaceFails(s: string)
    requires |s| > 0 && (IsWhitespace(s[0]) || IsWhitespace(s[|s| - 1]))
    ensures !MatchesEmailPattern(s)
  {
    EmailPatternCharacterised(s);
  }

}

/** The user form: its prefill, the e-mail pattern, the step-by-step validation, submission and
  * per-field editing. */
module UserModal {
  import opened Wrappers
  import opened Text
  import opened Types
  import opened Forms
  import opened EmailPattern

  /** The form's data, which is also what `onSave` receives: a user without id, last access
    * and photo. */
  datatype UserForm = UserForm(nome: string, email: string, cargo: string, nivel: Nivel, ativo: bool)

  const EmptyForm: UserForm := UserForm("", "", "", Funcionario, true)

  /** The effect run on opening: an edit of a given user copies its fields, anything else starts
    * from the empty form. */
  function Prefill(user: Option<User>, mode: Mode): (f: UserForm)
    ensures user.Some? && mode == Edit ==>
      f.nome == user.value.nome && f.email == user.value.email && f.cargo == user.value.cargo &&
      f.nivel == user.value.nivel && f.ativo == user.value.ativo
    ensures !(user.Some? && mode == Edit) ==> f == EmptyForm
  {
    if user.Some? && mode == Edit then
      var u := user.value;
      UserForm(u.nome, u.email, u.cargo, u.nivel, u.ativo)
    else EmptyForm
  }

  /** The form's fields, by the name `handleInputChange` and the error record use. */
  datatype Field = NomeField | EmailField | CargoField | NivelField | AtivoField

  const AllFields: set<Field> := {NomeField, EmailField, CargoField, NivelField, AtivoField}

  const NomeRequired := "Nome é obrigatório"
  const EmailRequired := "Email é obrigatório"
  const EmailMalformed := "Email deve ter um formato válido"
  const CargoRequired := "Cargo é obrigatório"

  /** The check `validateForm` runs on each field: a required name, a required and well-formed
    * e-mail, a required role; level and status are not checked. */
  predicate Fails(f: UserForm, k: Field) {
    match k
    case NomeField => IsBlank(f.nome)
    case EmailField => IsBlank(f.email) || !MatchesEmailPattern(f.email)
    case CargoField => IsBlank(f.cargo)
    case NivelField => false
    case AtivoField => false
  }

  /** The message of a failing field; the e-mail's format is only checked, and its message only
    * used, when the e-mail is present. */
  function Message(f: UserForm, k: Field): string {
    match k
    case NomeField => NomeRequired
    case EmailField => if IsBlank(f.email) then EmailRequired else EmailMalformed
    case CargoField => CargoRequired
    case NivelField => ""
    case AtivoField => ""
  }

  /** The `newErrors` record `validateForm` builds: each failing field with its message. */
  function FormErrors(f: UserForm): Errors<Field> {
    map k | k in AllFields && Fails(f, k) :: Message(f, k)
  }

  /** The form the validation accepts, stated field by field. */
  predicate IsValidForm(f: UserForm) {
    !IsBlank(f.nome) && !IsBlank(f.email) && WellFormedEmail(f.email) && !IsBlank(f.cargo)
  }

  /** Errors are only ever recorded for the three text fields, each exactly when its check
    * fails; a missing e-mail gets the required message and never the format message; and the
    * form is valid exactly when no error is recorded. */
  lemma FormErrorsSpec(f: UserForm)
    ensures FormErrors(f).Keys <= {NomeField, EmailField, CargoField}
    ensures NomeField in FormErrors(f) <==> IsBlank(f.nome)
    ensures CargoField in FormErrors(f) <==> IsBlank(f.cargo)
    ensures EmailField in FormErrors(f) <==> IsBlank(f.email) || !WellFormedEmail(f.email)
    ensures EmailField in FormErrors(f) ==>
      FormErrors(f)[EmailField] == if IsBlank(f.email) then EmailRequired else EmailMalformed
    ensures forall k :: k in FormErrors(f) ==> FormErrors(f)[k] != ""
    ensures |FormErrors(f)| == 0 <==> IsValidForm(f)
  {
    EmailPatternCharacterised(f.email);
    var e := FormErrors(f);
    if !IsValidForm(f) {
      var k := if IsBlank(f.nome) then NomeField else if IsBlank(f.cargo) then CargoField else EmailField;
      assert k in e.Keys;
    } else {
      assert e == map[];
    }
  }

  /** A freshly opened create form is invalid. */
  lemma EmptyFormInvalid()
    ensures FormErrors(EmptyForm).Keys == {NomeField, EmailField, CargoField}
    ensures FormErrors(EmptyForm)[EmailField] == EmailRequired
  {
    FormErrorsSpec(EmptyForm);
  }

  /** The text fields of the form. */
  predicate IsText(field: Field) {
    field.NomeField? || field.EmailField? || field.CargoField?
  }

  /** `{ ...prev, [field]: value }` for a text field. */
  function SetText(f: UserForm, field: Field, value: string): UserForm
    requires IsText(field)
  {
    match field
    case NomeField => f.(nome := value)
    case EmailField => f.(email := value)
    case CargoField => f.(cargo := value)
  }

  /** Editing one text field and then validating: whether any other field has an error is as it
    * was before the edit. */
  lemma EditTouchesOnlyItsField(f: UserForm, field: Field, value: string, other: Field)
    requires IsText(field) && other != field
    ensures (other in FormErrors(SetText(f, field, value))) == (other in FormErrors(f))
  {
    FormErrorsSpec(f);
    FormErrorsSpec(SetText(f, field, value));
  }

  /** The form component's state. `saved` lists what was handed to `onSave`, `closeRequests`
    * counts the calls of `onClose`. */
  class UserDialog {
    var formData: UserForm
    var errors: Errors<Field>
    var saved: seq<UserForm>
    var closeRequests: nat

    constructor()
      ensures formData == EmptyForm && errors == map[] && saved == [] && closeRequests == 0
    {
      formData := EmptyForm;
      errors := map[];
      saved := [];
      closeRequests := 0;
    }

    /** The effect that runs when the dialog opens or its user or mode change. */
    method Open(user: Option<User>, mode: Mode)
      modifies this
      ensures formData == Prefill(user, mode) && errors == map[]
      ensures saved == old(saved) && closeRequests == old(closeRequests)
    {
      formData := Prefill(user, mode);
      errors := map[];
    }

    /** `validateForm`: the errors are rebuilt from scratch and the result says whether none
      * was recorded. */
    method Validate() returns (valid: bool)
      modifies this
      ensures formData == old(formData) && saved == old(saved) && closeRequests == old(closeRequests)
      ensures errors == FormErrors(formData)
      ensures valid == (|errors| == 0)
    {
      var f := formData;
      var newErrors := FormErrors(f);
      FormErrorsSpec(f);
      errors := newErrors;
      // No key recorded is the same as the form passing every check.
      valid := IsValidForm(f);
    }

    /** `handleSubmit`: a form without errors is handed to `onSave` and the dialog asks to be
      * closed; otherwise only the errors are shown. By `FormErrorsSpec`, the forms handed on are
      * exactly the valid ones. */
    method HandleSubmit()
      modifies this
      ensures errors == FormErrors(old(formData)) && formData == old(formData)
      ensures |errors| == 0 ==> saved == old(saved) + [formData] && closeRequests == old(closeRequests) + 1
      ensures |errors| != 0 ==> saved == old(saved) && closeRequests == old(closeRequests)
    {
      var valid := Validate();
      if !valid {
        return;
      }
      saved := saved + [formData];
      closeRequests := closeRequests + 1;
    }

    /** `handleInputChange` on a text field. */
    method ChangeText(field: Field, value: string)
      requires IsText(field)
      modifies this
      ensures formData == SetText(old(formData), field, value)
      ensures errors == ClearError(old(errors), field)
      ensures saved == old(saved) && closeRequests == old(closeRequests)
    {
      formData := SetText(formData, field, value);
      errors := ClearError(errors, field);
    }

    /** `handleInputChange('nivel', value)`. */
    method ChangeNivel(value: Nivel)
      modifies this
      ensures formData == old(formData).(nivel := value)
      ensures errors == ClearError(old(errors), NivelField)
      ensures saved == old(saved) && closeRequests == old(closeRequests)
    {
      formData := formData.(nivel := value);
      errors := ClearError(errors, NivelField);
    }

    /** `handleInputChange('ativo', value)`. */
    method ChangeAtivo(value: bool)
      modifies this
      ensures formData == old(formData).(ativo := value)
      ensures errors == ClearError(old(errors), AtivoField)
      ensures saved == old(saved) && closeRequests == old(closeRequests)
    {
      formData := formData.(ativo := value);
      errors := ClearError(errors, AtivoField);
    }
  }
}
