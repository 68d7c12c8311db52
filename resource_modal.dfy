/** The resource form: its prefill, the step-by-step validation, submission and per-field
  * editing. */
module ResourceModal {
  import opened Wrappers
  import opened Text
  import opened Types
  import opened Forms

  /** The form's data, which is also what `onSave` receives: a resource without its id. */
  datatype ResourceForm = ResourceForm(
    nome: string, categoria: Categoria, status: StatusRecurso, localizacao: string,
    responsavel: string, dataAquisicao: string, valor: real, descricao: string)

  /** The effect run on opening. Editing a given resource copies its fields and keeps only the
    * date part (before the first 'T') of its acquisition timestamp; anything else starts from
    * an empty form dated with the date part of `nowIso` (`new Date().toISOString()`). */
  function Prefill(resource: Option<Recurso>, mode: Mode, nowIso: string): ResourceForm {
    if resource.Some? && mode == Edit then
      var r := resource.value;
      ResourceForm(r.nome, r.categoria, r.status, r.localizacao, r.responsavel,
        BeforeFirst(r.dataAquisicao, 'T'), r.valor, r.descricao)
    else
      ResourceForm("", Equipamento, Disponivel, "", "", BeforeFirst(nowIso, 'T'), 0.0, "")
  }

  /** What `handleSubmit` hands to `onSave`: the form with its date turned back into a full
    * timestamp by `toIso`, which stands for `new Date(date).toISOString()`. */
  function Submitted(form: ResourceForm, toIso: string -> string): ResourceForm {
    form.(dataAquisicao := toIso(form.dataAquisicao))
  }

  /** An edit prefill copies every field but the date, whose value is the stored timestamp up to
    * its first 'T'. */
  lemma PrefillEditSpec(r: Recurso, nowIso: string)
    ensures var f := Prefill(Some(r), Edit, nowIso);
      f.nome == r.nome && f.categoria == r.categoria && f.status == r.status &&
      f.localizacao == r.localizacao && f.responsavel == r.responsavel && f.valor == r.valor &&
      f.descricao == r.descricao &&
      r.dataAquisicao[..|f.dataAquisicao|] == f.dataAquisicao && 'T' !in f.dataAquisicao &&
      (|f.dataAquisicao| < |r.dataAquisicao| ==> r.dataAquisicao[|f.dataAquisicao|] == 'T')
  {
  }

  /** The form's fields, by the name `handleInputChange` and the error record use. */
  datatype Field =
    | NomeField | CategoriaField | StatusField | LocalizacaoField | ResponsavelField
    | DataField | ValorField | DescricaoField

  const NomeRequired := "Nome é obrigatório"
  const LocalizacaoRequired := "Localização é obrigatória"
  const ResponsavelRequired := "Responsável é obrigatório"
  const DataRequired := "Data de aquisição é obrigatória"
  const ValorPositive := "Valor deve ser maior que zero"
  const DescricaoRequired := "Descrição é obrigatória"

  const AllFields: set<Field> :=
    {NomeField, CategoriaField, StatusField, LocalizacaoField, ResponsavelField, DataField, ValorField, DescricaoField}

  /** The check `validateForm` runs on each field: blank texts, an empty date and a value that
    * is not above zero fail; category and status are not checked. */
  predicate Fails(f: ResourceForm, k: Field) {
    match k
    case NomeField => IsBlank(f.nome)
    case LocalizacaoField => IsBlank(f.localizacao)
    case ResponsavelField => IsBlank(f.responsavel)
    case DataField => f.dataAquisicao == ""
    case ValorField => f.valor <= 0.0
    case DescricaoField => IsBlank(f.descricao)
    case CategoriaField => false
    case StatusField => false
  }

  function Message(k: Field): string {
    match k
    case NomeField => NomeRequired
    case LocalizacaoField => LocalizacaoRequired
    case ResponsavelField => ResponsavelRequired
    case DataField => DataRequired
    case ValorField => ValorPositive
    case DescricaoField => DescricaoRequired
    case CategoriaField => ""
    case StatusField => ""
  }

  /** The `newErrors` record `validateForm` builds: each failing field with its message. */
  function FormErrors(f: ResourceForm): Errors<Field> {
    map k | k in AllFields && Fails(f, k) :: Message(k)
  }

  /** The form the validation accepts, stated field by field. */
  predicate IsValidForm(f: ResourceForm) {
    !IsBlank(f.nome) && !IsBlank(f.localizacao) && !IsBlank(f.responsavel) &&
    f.dataAquisicao != "" && f.valor > 0.0 && !IsBlank(f.descricao)
  }

  /** Each field's error is recorded exactly when its check fails, with a non-empty message,
    * and the form is valid exactly when no error is recorded. */
  lemma FormErrorsSpec(f: ResourceForm)
    ensures forall k :: k in FormErrors(f) <==> Fails(f, k)
    ensures forall k :: k in FormErrors(f) ==> FormErrors(f)[k] != ""
    ensures |FormErrors(f)| == 0 <==> IsValidForm(f)
  {
    var e := FormErrors(f);
    forall k ensures k in AllFields {
      match k
      case NomeField =>
      case CategoriaField =>
      case StatusField =>
      case LocalizacaoField =>
      case ResponsavelField =>
      case DataField =>
      case ValorField =>
      case DescricaoField =>
    }
    if !IsValidForm(f) {
      var k :| k in AllFields && Fails(f, k);
      assert k in e.Keys;
    } else {
      assert e == map[];
    }
  }

  /** A freshly opened create form is rejected: its texts are empty and its value is the
    * default 0, which the value check refuses. */
  lemma FreshCreateFormInvalid(nowIso: string)
    ensures var e := FormErrors(Prefill(None, Create, nowIso));
      NomeField in e && LocalizacaoField in e && ResponsavelField in e && ValorField in e && DescricaoField in e
    ensures !IsValidForm(Prefill(None, Create, nowIso))
  {
    FormErrorsSpec(Prefill(None, Create, nowIso));
    assert IsBlank("");
  }

  /** The value check refuses zero and negative values whatever the other fields hold. */
  lemma ValueMustBePositive(f: ResourceForm)
    requires f.valor <= 0.0
    ensures ValorField in FormErrors(f) && !IsValidForm(f)
  {
    FormErrorsSpec(f);
  }

  /** The text fields of the form. */
  predicate IsText(field: Field) {
    !(field.CategoriaField? || field.StatusField? || field.ValorField?)
  }

  /** `{ ...prev, [field]: value }` for a text field. */
  function SetText(f: ResourceForm, field: Field, value: string): ResourceForm
    requires IsText(field)
  {
    match field
    case NomeField => f.(nome := value)
    case LocalizacaoField => f.(localizacao := value)
    case ResponsavelField => f.(responsavel := value)
    case DataField => f.(dataAquisicao := value)
    case DescricaoField => f.(descricao := value)
  }

  /** Editing one text field leaves whether any other field has an error as it was. */
  lemma EditTouchesOnlyItsField(f: ResourceForm, field: Field, value: string, key: Field)
    requires IsText(field) && key != field
    ensures (key in FormErrors(SetText(f, field, value))) == (key in FormErrors(f))
  {
    FormErrorsSpec(f);
    FormErrorsSpec(SetText(f, field, value));
  }

  /** The form component's state. `saved` lists what was handed to `onSave`, `closeRequests`
    * counts the calls of `onClose`. `toIso` stands for `new Date(date).toISOString()`. */
  class ResourceDialog {
    var formData: ResourceForm
    var errors: Errors<Field>
    var saved: seq<ResourceForm>
    var closeRequests: nat
    const toIso: string -> string

    constructor(nowIso: string, toIso: string -> string)
      ensures formData == Prefill(None, Create, nowIso) && errors == map[]
      ensures saved == [] && closeRequests == 0 && this.toIso == toIso
    {
      formData := Prefill(None, Create, nowIso);
      errors := map[];
      saved := [];
      closeRequests := 0;
      this.toIso := toIso;
    }

    /** The effect that runs when the dialog opens or its resource or mode change. */
    method Open(resource: Option<Recurso>, mode: Mode, nowIso: string)
      modifies this
      ensures formData == Prefill(resource, mode, nowIso) && errors == map[]
      ensures saved == old(saved) && closeRequests == old(closeRequests)
    {
      formData := Prefill(resource, mode, nowIso);
      errors := map[];
    }

    /** `validateForm`. */
    method Validate() returns (valid: bool)
      modifies this
      ensures formData == old(formData) && saved == old(saved) && closeRequests == old(closeRequests)
      ensures errors == FormErrors(formData)
      ensures valid == (|errors| == 0)
    {
      var f := formData;
      var newErrors := FormErrors(f);
      FormErrorsSpec(f);
      errors := newErrors;
      valid := |newErrors| == 0;
    }

    /** `handleSubmit`: a form without errors is handed to `onSave` with its date turned into a
      * full timestamp, and the dialog asks to be closed; otherwise only the errors are shown. */
    method HandleSubmit()
      modifies this
      ensures errors == FormErrors(old(formData)) && formData == old(formData)
      ensures |errors| == 0 ==>
        saved == old(saved) + [Submitted(formData, toIso)] &&
        closeRequests == old(closeRequests) + 1
      ensures |errors| != 0 ==> saved == old(saved) && closeRequests == old(closeRequests)
    {
      var valid := Validate();
      if !valid {
        return;
      }
      var resourceData := Submitted(formData, toIso);
      saved := saved + [resourceData];
      closeRequests := closeRequests + 1;
    }

    /** `handleInputChange` on a text field. */
    method ChangeText(field: Field, value: string)
      requires IsText(field)
      modifies this
      ensures formData == SetText(old(formData), field, value)
      ensures errors == ClearError(old(errors), field)
      ensures saved == old(saved) && closeRequests == old(closeRequests)
    {
      formData := SetText(formData, field, value);
      errors := ClearError(errors, field);
    }

    /** `handleInputChange('valor', ...)`, given the number the input already parsed. */
    method ChangeValor(value: real)
      modifies this
      ensures formData == old(formData).(valor := value)
      ensures errors == ClearError(old(errors), ValorField)
      ensures saved == old(saved) && closeRequests == old(closeRequests)
    {
      formData := formData.(valor := value);
      errors := ClearError(errors, ValorField);
    }

    method ChangeCategoria(value: Categoria)
      modifies this
      ensures formData == old(formData).(categoria := value)
      ensures errors == ClearError(old(errors), CategoriaField)
      ensures saved == old(saved) && closeRequests == old(closeRequests)
    {
      formData := formData.(categoria := value);
      errors := ClearError(errors, CategoriaField);
    }

    method ChangeStatus(value: StatusRecurso)
      modifies this
      ensures formData == old(formData).(status := value)
      ensures errors == ClearError(old(errors), StatusField)
      ensures saved == old(saved) && closeRequests == old(closeRequests)
    {
      formData := formData.(status := value);
      errors := ClearError(errors, StatusField);
    }
  }
}
