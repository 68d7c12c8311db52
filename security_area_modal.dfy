/** The security-area form: its prefill, the validation, submission, per-field editing and the
  * access allowlist with its user picker. */
module SecurityAreaModal {
  import opened Wrappers
  import opened Text
  import opened Seqs
  import opened Types
  import opened Forms

  /** The form's data, which is also what `onSave` receives: an area without its id, with the
    * descriptive properties the form keeps besides the declared ones. */
  datatype AreaForm = AreaForm(
    nome: string, nivel: NivelArea, status: StatusArea, acessosPermitidos: seq<string>,
    ultimaVistoria: string, descricao: string, localizacao: string, responsavel: string,
    equipamentos: seq<string>, protocolos: seq<string>)

  /** The e-mails the picker offers. */
  const MockUsuarios: seq<string> := [
    "bruce@wayneind.com", "lucius@wayneind.com", "alfred@wayneind.com", "selina@wayneind.com",
    "harvey@wayneind.com", "admin@wayneind.com", "secretaria@wayneind.com", "seguranca@wayneind.com"
  ]

  /** The effect run on opening. Editing a given area copies its fields (the descriptive ones
    * default to empty, which an area without them already holds) and keeps only the date part of
    * its inspection timestamp; anything else starts from an empty form at level `baixo`, status
    * `ativo`, dated with the date part of `nowIso`. */
  function Prefill(area: Option<AreaSeguranca>, mode: Mode, nowIso: string): AreaForm {
    if area.Some? && mode == Edit then
      var a := area.value;
      AreaForm(a.nome, a.nivel, a.status, a.acessosPermitidos, BeforeFirst(a.ultimaVistoria, 'T'),
        a.descricao, a.localizacao, a.responsavel, a.equipamentos, a.protocolos)
    else
      AreaForm("", Baixo, Ativo, [], BeforeFirst(nowIso, 'T'), "", "", "", [], [])
  }

  /** An edit prefill copies every field but the date, which is the stored timestamp up to its
    * first 'T'; a create prefill starts at level `baixo` and status `ativo` with nobody allowed. */
  lemma PrefillSpec(a: AreaSeguranca, nowIso: string)
    ensures var f := Prefill(Some(a), Edit, nowIso);
      f.nome == a.nome && f.nivel == a.nivel && f.status == a.status &&
      f.acessosPermitidos == a.acessosPermitidos && f.descricao == a.descricao &&
      f.localizacao == a.localizacao && f.responsavel == a.responsavel &&
      f.equipamentos == a.equipamentos && f.protocolos == a.protocolos &&
      a.ultimaVistoria[..|f.ultimaVistoria|] == f.ultimaVistoria && 'T' !in f.ultimaVistoria
    ensures var f := Prefill(None, Create, nowIso);
      f.nivel == Baixo && f.status == Ativo && f.acessosPermitidos == [] && f.nome == ""
  {
  }

  /** The form's fields, by the name `handleInputChange` and the error record use. */
  datatype Field =
    | NomeField | NivelField | StatusField | AcessosField | VistoriaField
    | DescricaoField | LocalizacaoField | ResponsavelField

  const NomeRequired := "Nome da área é obrigatório"
  const LocalizacaoRequired := "Localização é obrigatória"
  const ResponsavelRequired := "Responsável é obrigatório"
  const VistoriaRequired := "Data da última vistoria é obrigatória"
  const DescricaoRequired := "Descrição é obrigatória"
  const AcessosRequired := "Pelo menos um usuário deve ter acesso"

  const AllFields: set<Field> :=
    {NomeField, NivelField, StatusField, AcessosField, VistoriaField, DescricaoField, LocalizacaoField, ResponsavelField}

  /** The check `validateForm` runs on each field: blank texts, an empty date and an empty
    * allowlist fail; level and status are not checked. */
  predicate Fails(f: AreaForm, k: Field) {
    match k
    case NomeField => IsBlank(f.nome)
    case LocalizacaoField => IsBlank(f.localizacao)
    case ResponsavelField => IsBlank(f.responsavel)
    case VistoriaField => f.ultimaVistoria == ""
    case DescricaoField => IsBlank(f.descricao)
    case AcessosField => |f.acessosPermitidos| == 0
    case NivelField => false
    case StatusField => false
  }

  function Message(k: Field): string {
    match k
    case NomeField => NomeRequired
    case LocalizacaoField => LocalizacaoRequired
    case ResponsavelField => ResponsavelRequired
    case VistoriaField => VistoriaRequired
    case DescricaoField => DescricaoRequired
    case AcessosField => AcessosRequired
    case NivelField => ""
    case StatusField => ""
  }

  /** The `newErrors` record `validateForm` builds: each failing field with its message. */
  function FormErrors(f: AreaForm): Errors<Field> {
    map k | k in AllFields && Fails(f, k) :: Message(k)
  }

  /** The form the validation accepts, stated field by field. */
  predicate IsValidForm(f: AreaForm) {
    !IsBlank(f.nome) && !IsBlank(f.localizacao) && !IsBlank(f.responsavel) &&
    f.ultimaVistoria != "" && !IsBlank(f.descricao) && |f.acessosPermitidos| > 0
  }

  /** Each field's error is recorded exactly when its check fails, with a non-empty message,
    * and the form is valid exactly when no error is recorded. */
  lemma FormErrorsSpec(f: AreaForm)
    ensures forall k :: k in FormErrors(f) <==> Fails(f, k)
    ensures forall k :: k in FormErrors(f) ==> FormErrors(f)[k] != ""
    ensures |FormErrors(f)| == 0 <==> IsValidForm(f)
  {
    var e := FormErrors(f);
    forall k ensures k in AllFields {
      match k
      case NomeField =>
      case NivelField =>
      case StatusField =>
      case AcessosField =>
      case VistoriaField =>
      case DescricaoField =>
      case LocalizacaoField =>
      case ResponsavelField =>
    }
    if !IsValidForm(f) {
      var k :| k in AllFields && Fails(f, k);
      assert k in e.Keys;
    } else {
      assert e == map[];
    }
  }

  /** An area nobody may enter is refused, whatever the other fields hold. */
  lemma EmptyAllowlistRefused(f: AreaForm)
    requires f.acessosPermitidos == []
    ensures AcessosField in FormErrors(f) && !IsValidForm(f)
  {
    FormErrorsSpec(f);
  }

  /** The text fields of the form. */
  predicate IsText(field: Field) {
    !(field.NivelField? || field.StatusField? || field.AcessosField?)
  }

  /** `{ ...prev, [field]: value }` for a text field. */
  function SetText(f: AreaForm, field: Field, value: string): AreaForm
    requires IsText(field)
  {
    match field
    case NomeField => f.(nome := value)
    case VistoriaField => f.(ultimaVistoria := value)
    case DescricaoField => f.(descricao := value)
    case LocalizacaoField => f.(localizacao := value)
    case ResponsavelField => f.(responsavel := value)
  }

  /** Editing one text field leaves whether any other field has an error as it was. */
  lemma EditTouchesOnlyItsField(f: AreaForm, field: Field, value: string, key: Field)
    requires IsText(field) && key != field
    ensures (key in FormErrors(SetText(f, field, value))) == (key in FormErrors(f))
  {
    FormErrorsSpec(f);
    FormErrorsSpec(SetText(f, field, value));
  }

  /** The allowlist after adding an e-mail: appended when absent, unchanged when present. */
  function WithUser(list: seq<string>, email: string): seq<string> {
    if email in list then list else list + [email]
  }

  function Differs(email: string): string -> bool {
    (u: string) => u != email
  }

  /** The allowlist after removing an e-mail: every occurrence goes. */
  function WithoutUser(list: seq<string>, email: string): seq<string> {
    Filter(Differs(email), list)
  }

  /** After adding, the e-mail is in the list and the list holds exactly the old entries and
    * the e-mail; the old list is kept as a prefix, and a list without repeats stays so. */
  lemma WithUserSpec(list: seq<string>, email: string)
    ensures email in WithUser(list, email)
    ensures forall x :: x in WithUser(list, email) <==> x in list || x == email
    ensures WithUser(list, email)[..|list|] == list
    ensures email in list ==> WithUser(list, email) == list
    ensures Distinct(list) ==> Distinct(WithUser(list, email))
  {
  }

  /** After removing, the e-mail is absent, every other entry is still there in its order, and
    * a list without repeats stays so. */
  lemma WithoutUserSpec(list: seq<string>, email: string)
    ensures email !in WithoutUser(list, email)
    ensures forall x :: x in WithoutUser(list, email) <==> x in list && x != email
    ensures Subseq(WithoutUser(list, email), list)
    ensures Distinct(list) ==> Distinct(WithoutUser(list, email))
  {
    FilterSpec(Differs(email), list);
    if Distinct(list) {
      FilterDistinct(Differs(email), list);
    }
  }

  /** Adding an e-mail the list lacks and then removing it gives the list back. */
  lemma AddThenRemoveRestores(list: seq<string>, email: string)
    requires email !in list
    ensures WithoutUser(WithUser(list, email), email) == list
  {
    FilterAppend(Differs(email), list, [email]);
    assert Filter(Differs(email), [email]) == [] by {
      assert [email][..0] == [];
    }
    FilterAll(Differs(email), list);
  }

  function Offered(term: string, selected: seq<string>): string -> bool {
    (u: string) => Contains(ToLower(u), ToLower(term)) && u !in selected
  }

  /** `filteredUsers`: the known e-mails that contain the picker term, compared in lower case,
    * and are not selected yet. */
  function PickerUsers(term: string, selected: seq<string>): seq<string> {
    Filter(Offered(term, selected), MockUsuarios)
  }

  /** The picker offers exactly the known e-mails that contain the term case-insensitively and
    * are not selected, in the known order; so it never offers an e-mail twice or one already
    * selected. */
  lemma PickerSpec(term: string, selected: seq<string>)
    ensures forall u :: u in PickerUsers(term, selected) <==>
      u in MockUsuarios && Contains(ToLower(u), ToLower(term)) && u !in selected
    ensures Subseq(PickerUsers(term, selected), MockUsuarios)
    ensures forall u :: u in selected ==> u !in PickerUsers(term, selected)
  {
    FilterSpec(Offered(term, selected), MockUsuarios);
  }

  /** An e-mail picked from the picker is no longer offered, whatever the term. */
  lemma PickedIsNoLongerOffered(term: string, selected: seq<string>, email: string, next: string)
    ensures email !in PickerUsers(next, WithUser(selected, email))
  {
    WithUserSpec(selected, email);
    PickerSpec(next, WithUser(selected, email));
  }

  /** The form component's state. `saved` lists what was handed to `onSave`, `closeRequests`
    * counts the calls of `onClose`. `toIso` stands for `new Date(date).toISOString()`. */
  class AreaDialog {
    var formData: AreaForm
    var errors: Errors<Field>
    var showUserDropdown: bool
    var userSearchTerm: string
    var saved: seq<AreaForm>
    var closeRequests: nat
    const toIso: string -> string

    constructor(nowIso: string, toIso: string -> string)
      ensures formData == Prefill(None, Create, nowIso) && errors == map[]
      ensures !showUserDropdown && userSearchTerm == ""
      ensures saved == [] && closeRequests == 0 && this.toIso == toIso
    {
      formData := Prefill(None, Create, nowIso);
      errors := map[];
      showUserDropdown := false;
      userSearchTerm := "";
      saved := [];
      closeRequests := 0;
      this.toIso := toIso;
    }

    /** The e-mails the picker lists for the current term and selection. */
    function Picker(): seq<string>
      reads this
    {
      PickerUsers(userSearchTerm, formData.acessosPermitidos)
    }

    /** The picker's list is on screen when it was opened and has something to offer. */
    predicate PickerShown()
      reads this
    {
      showUserDropdown && |Picker()| > 0
    }

    /** The effect that runs when the dialog opens or its area or mode change. */
    method Open(area: Option<AreaSeguranca>, mode: Mode, nowIso: string)
      modifies this
      ensures formData == Prefill(area, mode, nowIso) && errors == map[]
      ensures showUserDropdown == old(showUserDropdown) && userSearchTerm == old(userSearchTerm)
      ensures saved == old(saved) && closeRequests == old(closeRequests)
    {
      formData := Prefill(area, mode, nowIso);
      errors := map[];
    }

    /** `validateForm`. */
    method Validate() returns (valid: bool)
      modifies this
      ensures formData == old(formData) && saved == old(saved) && closeRequests == old(closeRequests)
      ensures showUserDropdown == old(showUserDropdown) && userSearchTerm == old(userSearchTerm)
      ensures errors == FormErrors(formData)
      ensures valid == (|errors| == 0)
    {
      var f := formData;
      var newErrors := FormErrors(f);
      FormErrorsSpec(f);
      errors := newErrors;
      valid := |newErrors| == 0;
    }

    /** `handleSubmit`: a form without errors is handed to `onSave` with its date turned into a
      * full timestamp, and the dialog asks to be closed; otherwise only the errors are shown. */
    method HandleSubmit()
      modifies this
      ensures errors == FormErrors(old(formData)) && formData == old(formData)
      ensures showUserDropdown == old(showUserDropdown) && userSearchTerm == old(userSearchTerm)
      ensures |errors| == 0 ==>
        saved == old(saved) + [formData.(ultimaVistoria := toIso(formData.ultimaVistoria))] &&
        closeRequests == old(closeRequests) + 1
      ensures |errors| != 0 ==> saved == old(saved) && closeRequests == old(closeRequests)
    {
      var valid := Validate();
      if !valid {
        return;
      }
      var areaData := formData.(ultimaVistoria := toIso(formData.ultimaVistoria));
      saved := saved + [areaData];
      closeRequests := closeRequests + 1;
    }

    /** `handleInputChange` on a text field. */
    method ChangeText(field: Field, value: string)
      requires IsText(field)
      modifies this
      ensures formData == SetText(old(formData), field, value)
      ensures errors == ClearError(old(errors), field)
      ensures showUserDropdown == old(showUserDropdown) && userSearchTerm == old(userSearchTerm)
      ensures saved == old(saved) && closeRequests == old(closeRequests)
    {
      formData := SetText(formData, field, value);
      errors := ClearError(errors, field);
    }

    method ChangeNivel(value: NivelArea)
      modifies this
      ensures formData == old(formData).(nivel := value)
      ensures errors == ClearError(old(errors), NivelField)
      ensures showUserDropdown == old(showUserDropdown) && userSearchTerm == old(userSearchTerm)
      ensures saved == old(saved) && closeRequests == old(closeRequests)
    {
      formData := formData.(nivel := value);
      errors := ClearError(errors, NivelField);
    }

    method ChangeStatus(value: StatusArea)
      modifies this
      ensures formData == old(formData).(status := value)
      ensures errors == ClearError(old(errors), StatusField)
      ensures showUserDropdown == old(showUserDropdown) && userSearchTerm == old(userSearchTerm)
      ensures saved == old(saved) && closeRequests == old(closeRequests)
    {
      formData := formData.(status := value);
      errors := ClearError(errors, StatusField);
    }

    /** `handleAddUser`: a new e-mail is appended (and the allowlist's error cleared); an e-mail
      * already there changes nothing; either way the picker closes and its term is cleared. */
    method HandleAddUser(email: string)
      modifies this
      ensures formData == old(formData).(acessosPermitidos := WithUser(old(formData.acessosPermitidos), email))
      ensures email !in old(formData.acessosPermitidos) ==> errors == ClearError(old(errors), AcessosField)
      ensures email in old(formData.acessosPermitidos) ==> errors == old(errors)
      ensures !showUserDropdown && userSearchTerm == ""
      ensures saved == old(saved) && closeRequests == old(closeRequests)
    {
      if email !in formData.acessosPermitidos {
        formData := formData.(acessosPermitidos := formData.acessosPermitidos + [email]);
        errors := ClearError(errors, AcessosField);
      }
      showUserDropdown := false;
      userSearchTerm := "";
    }

    /** `handleRemoveUser`: every occurrence of the e-mail leaves the allowlist. */
    method HandleRemoveUser(email: string)
      modifies this
      ensures formData == old(formData).(acessosPermitidos := WithoutUser(old(formData.acessosPermitidos), email))
      ensures errors == ClearError(old(errors), AcessosField)
      ensures showUserDropdown == old(showUserDropdown) && userSearchTerm == old(userSearchTerm)
      ensures saved == old(saved) && closeRequests == old(closeRequests)
    {
      formData := formData.(acessosPermitidos := WithoutUser(formData.acessosPermitidos, email));
      errors := ClearError(errors, AcessosField);
    }

    /** Typing in the picker's input. */
    method SetUserSearchTerm(term: string)
      modifies this
      ensures userSearchTerm == term
      ensures formData == old(formData) && errors == old(errors) && showUserDropdown == old(showUserDropdown)
      ensures saved == old(saved) && closeRequests == old(closeRequests)
    {
      userSearchTerm := term;
    }

    /** Focusing the picker's input opens its list. */
    method FocusPicker()
      modifies this
      ensures showUserDropdown
      ensures PickerShown() <==> |Picker()| > 0
      ensures formData == old(formData) && errors == old(errors) && userSearchTerm == old(userSearchTerm)
      ensures saved == old(saved) && closeRequests == old(closeRequests)
    {
      showUserDropdown := true;
    }
  }
}
