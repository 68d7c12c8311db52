/** The resources page: the filtered list it shows and the handlers that replace its list. */
module ResourcesPage {
  import opened Wrappers
  import opened Text
  import opened Seqs
  import opened Types
  import opened Forms
  import opened ResourceModal
  import SearchContext

  const SeedRecursos: seq<Recurso> := [
    Recurso("1", "Batmóvel", Veiculo, Disponivel, "Batcaverna - Garagem Principal", "Alfred Pennyworth",
      "2020-06-15T00:00:00Z", 50000000.0, "Veículo blindado de alta performance"),
    Recurso("2", "Sistema de Segurança Quantum", Seguranca, EmUso, "Torre Wayne - Andar 50", "Lucius Fox",
      "2023-03-20T00:00:00Z", 15000000.0, "Sistema avançado de monitoramento"),
    Recurso("3", "Computador Quântico", Equipamento, Disponivel, "Laboratório de Pesquisa", "Lucius Fox",
      "2023-01-10T00:00:00Z", 25000000.0, "Processamento de dados avançado"),
    Recurso("4", "Batwing", Veiculo, Manutencao, "Hangar Subterrâneo", "Alfred Pennyworth",
      "2021-08-12T00:00:00Z", 75000000.0, "Aeronave de combate avançada"),
    Recurso("5", "Escudo de Energia", Seguranca, Disponivel, "Depósito Blindado", "Bruce Wayne",
      "2022-11-05T00:00:00Z", 8000000.0, "Proteção contra ataques energéticos"),
    Recurso("6", "Servidor Central", Equipamento, EmUso, "Sala de Servidores", "Lucius Fox",
      "2023-05-18T00:00:00Z", 5000000.0, "Infraestrutura de dados principal")
  ]

  /** An empty term matches every resource; otherwise the lower-cased term must occur in the
    * lower-cased name, description, location or person in charge. */
  predicate MatchesTerm(term: string, r: Recurso) {
    term == "" || SearchContext.ResourceMatches(ToLower(term), r)
  }

  /** The category filter: `'todos'` or a category code compared exactly. */
  predicate PassesCategory(filter: string, r: Recurso) {
    filter == "todos" || CategoriaCode(r.categoria) == filter
  }

  function Shown(term: string, filter: string): Recurso -> bool {
    (r: Recurso) => MatchesTerm(term, r) && PassesCategory(filter, r)
  }

  /** `filteredRecursos`. */
  function FilteredRecursos(recursos: seq<Recurso>, global: string, local: string, filter: string): seq<Recurso> {
    Filter(Shown(SearchContext.ActiveTerm(global, local), filter), recursos)
  }

  /** A resource is listed exactly when it matches the active term and passes the category
    * filter; the listed resources keep their order. */
  lemma FilteredRecursosSpec(recursos: seq<Recurso>, global: string, local: string, filter: string)
    ensures forall r :: r in FilteredRecursos(recursos, global, local, filter) <==>
      r in recursos && MatchesTerm(SearchContext.ActiveTerm(global, local), r) && PassesCategory(filter, r)
    ensures Subseq(FilteredRecursos(recursos, global, local, filter), recursos)
  {
    FilterSpec(Shown(SearchContext.ActiveTerm(global, local), filter), recursos);
  }

  /** With no term and the filter `'todos'`, every resource is listed. */
  lemma NothingFilteredShowsAll(recursos: seq<Recurso>)
    ensures FilteredRecursos(recursos, "", "", "todos") == recursos
  {
    FilterAll(Shown("", "todos"), recursos);
  }

  /** Filtering by a category code lists only resources of that category. */
  lemma CategoryFilterIsExact(recursos: seq<Recurso>, global: string, local: string, c: Categoria)
    ensures forall r :: r in FilteredRecursos(recursos, global, local, CategoriaCode(c)) ==> r.categoria == c
  {
    FilteredRecursosSpec(recursos, global, local, CategoriaCode(c));
    CodesAreDistinct();
  }

  /** The global term, when set, wins over the page's own term. */
  lemma GlobalTermWins(recursos: seq<Recurso>, global: string, local: string, filter: string)
    requires global != ""
    ensures FilteredRecursos(recursos, global, local, filter) == FilteredRecursos(recursos, global, "", filter)
  {
  }

  function HasId(id: string): Recurso -> bool {
    (r: Recurso) => r.id == id
  }

  function LacksId(id: string): Recurso -> bool {
    (r: Recurso) => r.id != id
  }

  /** `recursos.filter(r => r.id !== id)`. */
  function Deleted(recursos: seq<Recurso>, id: string): seq<Recurso> {
    Filter(LacksId(id), recursos)
  }

  /** Deleting removes every resource with that id, keeps the others in order, and changes
    * nothing when no resource has that id. */
  lemma DeleteSpec(recursos: seq<Recurso>, id: string)
    ensures forall r :: r in Deleted(recursos, id) <==> r in recursos && r.id != id
    ensures Subseq(Deleted(recursos, id), recursos)
    ensures (forall i :: 0 <= i < |recursos| ==> recursos[i].id != id) ==> Deleted(recursos, id) == recursos
  {
    FilterSpec(LacksId(id), recursos);
    if forall i :: 0 <= i < |recursos| ==> recursos[i].id != id {
      FilterAll(LacksId(id), recursos);
    }
  }

  /** The resource `{ ...resourceData, id }`. */
  function FromForm(form: ResourceForm, id: string): Recurso {
    Recurso(id, form.nome, form.categoria, form.status, form.localizacao, form.responsavel,
      form.dataAquisicao, form.valor, form.descricao)
  }

  /** Create: the new resource goes at the end; `id` stands for `Date.now().toString()`. */
  function Created(recursos: seq<Recurso>, form: ResourceForm, id: string): seq<Recurso> {
    recursos + [FromForm(form, id)]
  }

  function Becomes(updated: Recurso): Recurso -> Recurso {
    (r: Recurso) => updated
  }

  /** Edit: the resources with the edited resource's id become the form's data with that id. */
  function Edited(recursos: seq<Recurso>, editing: Recurso, form: ResourceForm): seq<Recurso> {
    ReplaceWhere(HasId(editing.id), Becomes(FromForm(form, editing.id)), recursos)
  }

  /** Creating appends exactly one resource, carrying the form's fields and the new id, after the
    * unchanged old list. */
  lemma CreateSpec(recursos: seq<Recurso>, form: ResourceForm, id: string)
    ensures |Created(recursos, form, id)| == |recursos| + 1
    ensures Created(recursos, form, id)[..|recursos|] == recursos
    ensures var r := Created(recursos, form, id)[|recursos|];
      r.id == id && r.nome == form.nome && r.categoria == form.categoria && r.status == form.status &&
      r.localizacao == form.localizacao && r.responsavel == form.responsavel &&
      r.dataAquisicao == form.dataAquisicao && r.valor == form.valor && r.descricao == form.descricao
  {
  }

  /** Editing keeps the length; the edited entries keep their id and take the form's fields;
    * every other entry is unchanged. */
  lemma EditSpec(recursos: seq<Recurso>, editing: Recurso, form: ResourceForm)
    ensures |Edited(recursos, editing, form)| == |recursos|
    ensures forall i :: 0 <= i < |recursos| && recursos[i].id != editing.id ==>
      Edited(recursos, editing, form)[i] == recursos[i]
    ensures forall i :: 0 <= i < |recursos| && recursos[i].id == editing.id ==>
      Edited(recursos, editing, form)[i] == FromForm(form, editing.id)
  {
    ReplaceWhereSpec(HasId(editing.id), Becomes(FromForm(form, editing.id)), recursos);
  }

  /** Saving an edit prefill unchanged stores the resource with every field as it was except
    * the acquisition date, which becomes the timestamp of its date part; the resource comes
    * back unchanged exactly when that timestamp is the stored one. */
  lemma EditFromPrefillKeepsResource(r: Recurso, nowIso: string, toIso: string -> string)
    ensures FromForm(Submitted(Prefill(Some(r), Edit, nowIso), toIso), r.id) ==
      r.(dataAquisicao := toIso(BeforeFirst(r.dataAquisicao, 'T')))
    ensures FromForm(Submitted(Prefill(Some(r), Edit, nowIso), toIso), r.id) == r <==>
      toIso(BeforeFirst(r.dataAquisicao, 'T')) == r.dataAquisicao
  {
  }

  /** The page's state. Confirmation dialogs count as accepted; the notifications the handlers
    * emit are not part of this model. */
  class ResourcesView {
    var recursos: seq<Recurso>
    var localSearchTerm: string
    var selectedFilter: string
    var isModalOpen: bool
    var editingResource: Option<Recurso>
    var modalMode: Mode

    constructor()
      ensures recursos == SeedRecursos && localSearchTerm == "" && selectedFilter == "todos"
      ensures !isModalOpen && editingResource == None && modalMode == Create
    {
      recursos := SeedRecursos;
      localSearchTerm := "";
      selectedFilter := "todos";
      isModalOpen := false;
      editingResource := None;
      modalMode := Create;
    }

    /** The list on screen, for the shared search term `global`. */
    function Visible(global: string): seq<Recurso>
      reads this
    {
      FilteredRecursos(recursos, global, localSearchTerm, selectedFilter)
    }

    method HandleCreateNew()
      modifies this
      ensures editingResource == None && modalMode == Create && isModalOpen
      ensures recursos == old(recursos) && localSearchTerm == old(localSearchTerm) && selectedFilter == old(selectedFilter)
    {
      editingResource := None;
      modalMode := Create;
      isModalOpen := true;
    }

    method HandleEdit(r: Recurso)
      modifies this
      ensures editingResource == Some(r) && modalMode == Edit && isModalOpen
      ensures recursos == old(recursos) && localSearchTerm == old(localSearchTerm) && selectedFilter == old(selectedFilter)
    {
      editingResource := Some(r);
      modalMode := Edit;
      isModalOpen := true;
    }

    method HandleDelete(id: string)
      modifies this
      ensures recursos == Deleted(old(recursos), id)
      ensures isModalOpen == old(isModalOpen) && editingResource == old(editingResource) && modalMode == old(modalMode)
      ensures localSearchTerm == old(localSearchTerm) && selectedFilter == old(selectedFilter)
    {
      recursos := Deleted(recursos, id);
    }

    /** `handleSaveResource`: create appends, edit replaces; in edit mode without an edited
      * resource nothing happens. */
    method HandleSaveResource(form: ResourceForm, id: string)
      modifies this
      ensures modalMode == Create ==> recursos == Created(old(recursos), form, id)
      ensures modalMode == Edit && editingResource.Some? ==> recursos == Edited(old(recursos), editingResource.value, form)
      ensures modalMode == Edit && editingResource.None? ==> recursos == old(recursos)
      ensures isModalOpen == old(isModalOpen) && editingResource == old(editingResource) && modalMode == old(modalMode)
      ensures localSearchTerm == old(localSearchTerm) && selectedFilter == old(selectedFilter)
    {
      if modalMode == Create {
        recursos := Created(recursos, form, id);
      } else if editingResource.Some? {
        recursos := Edited(recursos, editingResource.value, form);
      }
    }

    method HandleCloseModal()
      modifies this
      ensures !isModalOpen && editingResource == None
      ensures recursos == old(recursos) && modalMode == old(modalMode)
      ensures localSearchTerm == old(localSearchTerm) && selectedFilter == old(selectedFilter)
    {
      isModalOpen := false;
      editingResource := None;
    }

    method SetLocalSearchTerm(term: string)
      modifies this
      ensures localSearchTerm == term
      ensures recursos == old(recursos) && selectedFilter == old(selectedFilter)
      ensures isModalOpen == old(isModalOpen) && editingResource == old(editingResource) && modalMode == old(modalMode)
    {
      localSearchTerm := term;
    }

    method SetSelectedFilter(filter: string)
      modifies this
      ensures selectedFilter == filter
      ensures recursos == old(recursos) && localSearchTerm == old(localSearchTerm)
      ensures isModalOpen == old(isModalOpen) && editingResource == old(editingResource) && modalMode == old(modalMode)
    {
      selectedFilter := filter;
    }
  }
}
