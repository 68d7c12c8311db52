/** The security page: the filtered list of areas, the handlers that replace it, and the flags
  * of its form and details dialogs. */
module SecurityPage {
  import opened Wrappers
  import opened Text
  import opened Seqs
  import opened Types
  import opened Forms
  import opened SecurityAreaModal
  import SearchContext

  /** A seed area: it has no descriptive properties. */
  function Seed(id: string, nome: string, nivel: NivelArea, acessos: seq<string>, vistoria: string, status: StatusArea): AreaSeguranca {
    AreaSeguranca(id, nome, nivel, acessos, vistoria, status, "", "", "", [], [])
  }

  const SeedAreas: seq<AreaSeguranca> := [
    Seed("1", "Laboratório de Pesquisa", Restrito, ["bruce@wayneind.com", "lucius@wayneind.com"], "2024-01-10T14:30:00Z", Ativo),
    Seed("2", "Garagem de Veículos", Alto, ["bruce@wayneind.com", "alfred@wayneind.com"], "2024-01-12T09:15:00Z", Ativo),
    Seed("3", "Sala de Servidores", Alto, ["lucius@wayneind.com", "admin@wayneind.com"], "2024-01-14T16:45:00Z", Alerta),
    Seed("4", "Escritório Executivo", Medio, ["bruce@wayneind.com", "secretaria@wayneind.com"], "2024-01-08T11:20:00Z", Ativo),
    Seed("5", "Armory", Restrito, ["bruce@wayneind.com"], "2024-01-13T18:00:00Z", EmManutencao),
    Seed("6", "Recepção", Baixo, ["todos"], "2024-01-15T08:30:00Z", Ativo)
  ]

  /** An empty term matches every area; otherwise the lower-cased term must occur in the
    * lower-cased name or in the level code. */
  predicate MatchesTerm(term: string, a: AreaSeguranca) {
    term == "" || SearchContext.AreaMatches(ToLower(term), a)
  }

  /** The level filter: `'todos'` or a level code compared exactly. */
  predicate PassesLevel(filter: string, a: AreaSeguranca) {
    filter == "todos" || NivelAreaCode(a.nivel) == filter
  }

  function Shown(term: string, filter: string): AreaSeguranca -> bool {
    (a: AreaSeguranca) => MatchesTerm(term, a) && PassesLevel(filter, a)
  }

  /** `filteredAreas`. */
  function FilteredAreas(areas: seq<AreaSeguranca>, global: string, local: string, filter: string): seq<AreaSeguranca> {
    Filter(Shown(SearchContext.ActiveTerm(global, local), filter), areas)
  }

  /** An area is listed exactly when it matches the active term and passes the level filter;
    * the listed areas keep their order. */
  lemma FilteredAreasSpec(areas: seq<AreaSeguranca>, global: string, local: string, filter: string)
    ensures forall a :: a in FilteredAreas(areas, global, local, filter) <==>
      a in areas && MatchesTerm(SearchContext.ActiveTerm(global, local), a) && PassesLevel(filter, a)
    ensures Subseq(FilteredAreas(areas, global, local, filter), areas)
  {
    FilterSpec(Shown(SearchContext.ActiveTerm(global, local), filter), areas);
  }

  /** With no term and the filter `'todos'`, every area is listed. */
  lemma NothingFilteredShowsAll(areas: seq<AreaSeguranca>)
    ensures FilteredAreas(areas, "", "", "todos") == areas
  {
    FilterAll(Shown("", "todos"), areas);
  }

  /** Filtering by a level code lists only areas of that level. */
  lemma LevelFilterIsExact(areas: seq<AreaSeguranca>, global: string, local: string, n: NivelArea)
    ensures forall a :: a in FilteredAreas(areas, global, local, NivelAreaCode(n)) ==> a.nivel == n
  {
    FilteredAreasSpec(areas, global, local, NivelAreaCode(n));
    CodesAreDistinct();
  }

  /** Typing a level code in the page's own search (with no global term and no filter) lists
    * every area of that level, whatever its name. */
  lemma LevelCodeFindsItsAreas(areas: seq<AreaSeguranca>, a: AreaSeguranca)
    requires a in areas
    ensures a in FilteredAreas(areas, "", NivelAreaCode(a.nivel), "todos")
  {
    var code := NivelAreaCode(a.nivel);
    LowerWithoutCapitals(code);
    assert OccursAt(ToLower(code), code, 0);
    FilteredAreasSpec(areas, "", code, "todos");
  }

  function HasId(id: string): AreaSeguranca -> bool {
    (a: AreaSeguranca) => a.id == id
  }

  /** The area `{ ...areaData, id }`. */
  function FromForm(form: AreaForm, id: string): AreaSeguranca {
    AreaSeguranca(id, form.nome, form.nivel, form.acessosPermitidos, form.ultimaVistoria, form.status,
      form.descricao, form.localizacao, form.responsavel, form.equipamentos, form.protocolos)
  }

  /** Create: the new area goes at the end; `id` stands for `Date.now().toString()`. */
  function Created(areas: seq<AreaSeguranca>, form: AreaForm, id: string): seq<AreaSeguranca> {
    areas + [FromForm(form, id)]
  }

  function Becomes(updated: AreaSeguranca): AreaSeguranca -> AreaSeguranca {
    (a: AreaSeguranca) => updated
  }

  /** Edit: the areas with the edited area's id become the form's data with that id. */
  function Edited(areas: seq<AreaSeguranca>, editing: AreaSeguranca, form: AreaForm): seq<AreaSeguranca> {
    ReplaceWhere(HasId(editing.id), Becomes(FromForm(form, editing.id)), areas)
  }

  /** Creating appends exactly one area, carrying the form's fields and the new id, after the
    * unchanged old list. */
  lemma CreateSpec(areas: seq<AreaSeguranca>, form: AreaForm, id: string)
    ensures |Created(areas, form, id)| == |areas| + 1
    ensures Created(areas, form, id)[..|areas|] == areas
    ensures var a := Created(areas, form, id)[|areas|];
      a.id == id && a.nome == form.nome && a.nivel == form.nivel && a.status == form.status &&
      a.acessosPermitidos == form.acessosPermitidos && a.ultimaVistoria == form.ultimaVistoria
  {
  }

  /** Editing keeps the length; the edited entries keep their id and take the form's fields;
    * every other entry is unchanged. */
  lemma EditSpec(areas: seq<AreaSeguranca>, editing: AreaSeguranca, form: AreaForm)
    ensures |Edited(areas, editing, form)| == |areas|
    ensures forall i :: 0 <= i < |areas| && areas[i].id != editing.id ==> Edited(areas, editing, form)[i] == areas[i]
    ensures forall i :: 0 <= i < |areas| && areas[i].id == editing.id ==>
      Edited(areas, editing, form)[i] == FromForm(form, editing.id)
  {
    ReplaceWhereSpec(HasId(editing.id), Becomes(FromForm(form, editing.id)), areas);
  }

  /** An area saved through the form and opened again for editing shows the form's data back,
    * the inspection date cut to its date part: the descriptive properties survive the trip. */
  lemma SavedAreaReopens(form: AreaForm, id: string, nowIso: string)
    ensures Prefill(Some(FromForm(form, id)), Edit, nowIso) ==
      form.(ultimaVistoria := BeforeFirst(form.ultimaVistoria, 'T'))
  {
  }

  /** The page's state. The notifications the handlers emit are not part of this model. */
  class SecurityView {
    var areas: seq<AreaSeguranca>
    var localSearchTerm: string
    var selectedFilter: string
    var isModalOpen: bool
    var isDetailsModalOpen: bool
    var editingArea: Option<AreaSeguranca>
    var selectedArea: Option<AreaSeguranca>
    var modalMode: Mode

    constructor()
      ensures areas == SeedAreas && localSearchTerm == "" && selectedFilter == "todos"
      ensures !isModalOpen && !isDetailsModalOpen && editingArea == None && selectedArea == None
      ensures modalMode == Create
    {
      areas := SeedAreas;
      localSearchTerm := "";
      selectedFilter := "todos";
      isModalOpen := false;
      isDetailsModalOpen := false;
      editingArea := None;
      selectedArea := None;
      modalMode := Create;
    }

    /** The list on screen, for the shared search term `global`. */
    function Visible(global: string): seq<AreaSeguranca>
      reads this
    {
      FilteredAreas(areas, global, localSearchTerm, selectedFilter)
    }

    method HandleCreateNew()
      modifies this
      ensures editingArea == None && modalMode == Create && isModalOpen
      ensures isDetailsModalOpen == old(isDetailsModalOpen) && selectedArea == old(selectedArea)
      ensures areas == old(areas) && localSearchTerm == old(localSearchTerm) && selectedFilter == old(selectedFilter)
    {
      editingArea := None;
      modalMode := Create;
      isModalOpen := true;
    }

    /** `handleEdit`: opens the form in edit mode and closes the details view. */
    method HandleEdit(a: AreaSeguranca)
      modifies this
      ensures editingArea == Some(a) && modalMode == Edit && isModalOpen && !isDetailsModalOpen
      ensures selectedArea == old(selectedArea)
      ensures areas == old(areas) && localSearchTerm == old(localSearchTerm) && selectedFilter == old(selectedFilter)
    {
      editingArea := Some(a);
      modalMode := Edit;
      isModalOpen := true;
      isDetailsModalOpen := false;
    }

    method HandleViewDetails(a: AreaSeguranca)
      modifies this
      ensures selectedArea == Some(a) && isDetailsModalOpen
      ensures isModalOpen == old(isModalOpen) && editingArea == old(editingArea) && modalMode == old(modalMode)
      ensures areas == old(areas) && localSearchTerm == old(localSearchTerm) && selectedFilter == old(selectedFilter)
    {
      selectedArea := Some(a);
      isDetailsModalOpen := true;
    }

    /** `handleSaveArea`: create appends, edit replaces; in edit mode without an edited area
      * nothing happens. */
    method HandleSaveArea(form: AreaForm, id: string)
      modifies this
      ensures modalMode == Create ==> areas == Created(old(areas), form, id)
      ensures modalMode == Edit && editingArea.Some? ==> areas == Edited(old(areas), editingArea.value, form)
      ensures modalMode == Edit && editingArea.None? ==> areas == old(areas)
      ensures isModalOpen == old(isModalOpen) && editingArea == old(editingArea) && modalMode == old(modalMode)
      ensures isDetailsModalOpen == old(isDetailsModalOpen) && selectedArea == old(selectedArea)
      ensures localSearchTerm == old(localSearchTerm) && selectedFilter == old(selectedFilter)
    {
      if modalMode == Create {
        areas := Created(areas, form, id);
      } else if editingArea.Some? {
        areas := Edited(areas, editingArea.value, form);
      }
    }

    method HandleCloseModal()
      modifies this
      ensures !isModalOpen && editingArea == None
      ensures isDetailsModalOpen == old(isDetailsModalOpen) && selectedArea == old(selectedArea)
      ensures areas == old(areas) && modalMode == old(modalMode)
      ensures localSearchTerm == old(localSearchTerm) && selectedFilter == old(selectedFilter)
    {
      isModalOpen := false;
      editingArea := None;
    }

    /** `handleCloseDetailsModal`: closes the details view and forgets the selected area. */
    method HandleCloseDetailsModal()
      modifies this
      ensures !isDetailsModalOpen && selectedArea == None
      ensures isModalOpen == old(isModalOpen) && editingArea == old(editingArea) && modalMode == old(modalMode)
      ensures areas == old(areas) && localSearchTerm == old(localSearchTerm) && selectedFilter == old(selectedFilter)
    {
      isDetailsModalOpen := false;
      selectedArea := None;
    }

    method SetLocalSearchTerm(term: string)
      modifies this
      ensures localSearchTerm == term
      ensures areas == old(areas) && selectedFilter == old(selectedFilter)
      ensures isModalOpen == old(isModalOpen) && editingArea == old(editingArea) && modalMode == old(modalMode)
      ensures isDetailsModalOpen == old(isDetailsModalOpen) && selectedArea == old(selectedArea)
    {
      localSearchTerm := term;
    }

    method SetSelectedFilter(filter: string)
      modifies this
      ensures selectedFilter == filter
      ensures areas == old(areas) && localSearchTerm == old(localSearchTerm)
      ensures isModalOpen == old(isModalOpen) && editingArea == old(editingArea) && modalMode == old(modalMode)
      ensures isDetailsModalOpen == old(isDetailsModalOpen) && selectedArea == old(selectedArea)
    {
      selectedFilter := filter;
    }
  }
}
