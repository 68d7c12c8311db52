/** The users page: the filtered list it shows and the handlers that replace its `users` list. */
module UsersPage {
  import opened Wrappers
  import opened Text
  import opened Seqs
  import opened Types
  import opened Forms
  import opened UserModal
  import SearchContext

  const SeedUsers: seq<User> := [
    User("1", "Bruce Wayne", "bruce@wayneind.com", "CEO", Admin, true, "2024-01-15T10:30:00Z", None),
    User("2", "Lucius Fox", "lucius@wayneind.com", "CTO", Gerente, true, "2024-01-15T09:15:00Z", None),
    User("3", "Alfred Pennyworth", "alfred@wayneind.com", "Gerente de Segurança", Gerente, true, "2024-01-15T08:45:00Z", None),
    User("4", "Selina Kyle", "selina@wayneind.com", "Analista de Sistemas", Funcionario, true, "2024-01-14T17:20:00Z", None),
    User("5", "Harvey Dent", "harvey@wayneind.com", "Diretor Jurídico", Gerente, false, "2024-01-10T14:30:00Z", None)
  ]

  /** An empty term matches everyone; otherwise the lower-cased term must occur in the
    * lower-cased name, e-mail or role. */
  predicate MatchesTerm(term: string, u: User) {
    term == "" || SearchContext.UserMatches(ToLower(term), u)
  }

  /** The level filter: `'todos'` or a level code compared exactly. */
  predicate PassesLevel(filter: string, u: User) {
    filter == "todos" || NivelCode(u.nivel) == filter
  }

  function Shown(term: string, filter: string): User -> bool {
    (u: User) => MatchesTerm(term, u) && PassesLevel(filter, u)
  }

  /** `filteredUsers`. */
  function FilteredUsers(users: seq<User>, global: string, local: string, filter: string): seq<User> {
    Filter(Shown(SearchContext.ActiveTerm(global, local), filter), users)
  }

  /** A user is listed exactly when it matches the active term and passes the level filter;
    * the listed users keep their order. */
  lemma FilteredUsersSpec(users: seq<User>, global: string, local: string, filter: string)
    ensures forall u :: u in FilteredUsers(users, global, local, filter) <==>
      u in users && MatchesTerm(SearchContext.ActiveTerm(global, local), u) && PassesLevel(filter, u)
    ensures Subseq(FilteredUsers(users, global, local, filter), users)
  {
    FilterSpec(Shown(SearchContext.ActiveTerm(global, local), filter), users);
  }

  /** With no term and the filter `'todos'`, every user is listed. */
  lemma NothingFilteredShowsAll(users: seq<User>)
    ensures FilteredUsers(users, "", "", "todos") == users
  {
    FilterAll(Shown("", "todos"), users);
  }

  /** Filtering by a level code lists only users of that level. */
  lemma LevelFilterIsExact(users: seq<User>, global: string, local: string, n: Nivel)
    ensures forall u :: u in FilteredUsers(users, global, local, NivelCode(n)) ==> u.nivel == n
  {
    FilteredUsersSpec(users, global, local, NivelCode(n));
    CodesAreDistinct();
  }

  function HasId(id: string): User -> bool {
    (u: User) => u.id == id
  }

  function LacksId(id: string): User -> bool {
    (u: User) => u.id != id
  }

  /** `users.filter(u => u.id !== id)`. */
  function Deleted(users: seq<User>, id: string): seq<User> {
    Filter(LacksId(id), users)
  }

  /** Deleting removes every user with that id, keeps the others in order, and changes nothing
    * when no user has that id. */
  lemma DeleteSpec(users: seq<User>, id: string)
    ensures forall u :: u in Deleted(users, id) <==> u in users && u.id != id
    ensures Subseq(Deleted(users, id), users)
    ensures (forall i :: 0 <= i < |users| ==> users[i].id != id) ==> Deleted(users, id) == users
  {
    FilterSpec(LacksId(id), users);
    if forall i :: 0 <= i < |users| ==> users[i].id != id {
      FilterAll(LacksId(id), users);
    }
  }

  /** `!user?.ativo` for the first user with that id; with none, `!undefined` is `true`. */
  function NewStatus(users: seq<User>, id: string): bool {
    match Find(HasId(id), users)
    case None => true
    case Some(u) => !u.ativo
  }

  function WithAtivo(status: bool): User -> User {
    (u: User) => u.(ativo := status)
  }

  /** `toggleUserStatus(id)`: every user with that id gets the flipped status of the first one. */
  function Toggled(users: seq<User>, id: string): seq<User> {
    ReplaceWhere(HasId(id), WithAtivo(NewStatus(users, id)), users)
  }

  /** The new status is the first matching user's status flipped. */
  lemma NewStatusFlipsFirst(users: seq<User>, id: string, k: nat)
    requires FirstAt(HasId(id), users, k)
    ensures NewStatus(users, id) == !users[k].ativo
  {
    assert HasId(id)(users[k]);
    var r := Find(HasId(id), users);
    var i :| FirstAt(HasId(id), users, i) && users[i] == r.value;
    assert i == k;
  }

  /** Toggling changes only `ativo`, only on users with that id; the others, the order and the
    * length stay; an unknown id changes nothing. */
  lemma ToggleSpec(users: seq<User>, id: string)
    ensures |Toggled(users, id)| == |users|
    ensures forall i :: 0 <= i < |users| ==>
      Toggled(users, id)[i] == if users[i].id == id then users[i].(ativo := NewStatus(users, id)) else users[i]
    ensures (forall i :: 0 <= i < |users| ==> users[i].id != id) ==> Toggled(users, id) == users
  {
    ReplaceWhereSpec(HasId(id), WithAtivo(NewStatus(users, id)), users);
  }

  /** When the users with that id agree on their status (in particular when the id is unique),
    * toggling twice restores the list. */
  lemma ToggleTwiceRestores(users: seq<User>, id: string)
    requires forall i, j :: 0 <= i < |users| && 0 <= j < |users| && users[i].id == id && users[j].id == id ==>
      users[i].ativo == users[j].ativo
    ensures Toggled(Toggled(users, id), id) == users
  {
    var once := Toggled(users, id);
    ToggleSpec(users, id);
    ToggleSpec(once, id);
    var r := Find(HasId(id), users);
    if r.Some? {
      var k :| FirstAt(HasId(id), users, k) && users[k] == r.value;
      NewStatusFlipsFirst(users, id, k);
      assert FirstAt(HasId(id), once, k);
      NewStatusFlipsFirst(once, id, k);
    }
  }

  /** The user the save handler builds from the form data: the form's fields with the given id
    * and last access, and no photo. */
  function FromForm(form: UserForm, id: string, ultimoAcesso: string): User {
    User(id, form.nome, form.email, form.cargo, form.nivel, form.ativo, ultimoAcesso, None)
  }

  /** Create: the new user goes at the end. `id` and `now` stand for `Date.now().toString()` and
    * `new Date().toISOString()`. */
  function Created(users: seq<User>, form: UserForm, id: string, now: string): seq<User> {
    users + [FromForm(form, id, now)]
  }

  function Becomes(updated: User): User -> User {
    (u: User) => updated
  }

  /** Edit: the users with the edited user's id become the form's data with that id and that
    * user's last access. */
  function Edited(users: seq<User>, editing: User, form: UserForm): seq<User> {
    ReplaceWhere(HasId(editing.id), Becomes(FromForm(form, editing.id, editing.ultimoAcesso)), users)
  }

  /** Creating appends exactly one user built from the form, after the unchanged old list. */
  lemma CreateSpec(users: seq<User>, form: UserForm, id: string, now: string)
    ensures |Created(users, form, id, now)| == |users| + 1
    ensures Created(users, form, id, now)[..|users|] == users
    ensures var u := Created(users, form, id, now)[|users|];
      u.id == id && u.ultimoAcesso == now && u.nome == form.nome && u.email == form.email &&
      u.cargo == form.cargo && u.nivel == form.nivel && u.ativo == form.ativo
  {
  }

  /** Editing keeps the length; the edited entries keep their id and last access and take the
    * form's fields; every other entry is unchanged. */
  lemma EditSpec(users: seq<User>, editing: User, form: UserForm)
    ensures |Edited(users, editing, form)| == |users|
    ensures forall i :: 0 <= i < |users| && users[i].id != editing.id ==> Edited(users, editing, form)[i] == users[i]
    ensures forall i :: 0 <= i < |users| && users[i].id == editing.id ==>
      var u := Edited(users, editing, form)[i];
      u.id == editing.id && u.ultimoAcesso == editing.ultimoAcesso && u.nome == form.nome &&
      u.email == form.email && u.cargo == form.cargo && u.nivel == form.nivel && u.ativo == form.ativo
  {
    ReplaceWhereSpec(HasId(editing.id), Becomes(FromForm(form, editing.id, editing.ultimoAcesso)), users);
  }

  /** The page's state. Confirmation dialogs count as accepted; the notifications the handlers
    * emit are not part of this model. */
  class UsersView {
    var users: seq<User>
    var localSearchTerm: string
    var selectedFilter: string
    var isModalOpen: bool
    var editingUser: Option<User>
    var modalMode: Mode

    constructor()
      ensures users == SeedUsers && localSearchTerm == "" && selectedFilter == "todos"
      ensures !isModalOpen && editingUser == None && modalMode == Create
    {
      users := SeedUsers;
      localSearchTerm := "";
      selectedFilter := "todos";
      isModalOpen := false;
      editingUser := None;
      modalMode := Create;
    }

    /** The list on screen, for the shared search term `global`. */
    function Visible(global: string): seq<User>
      reads this
    {
      FilteredUsers(users, global, localSearchTerm, selectedFilter)
    }

    method HandleCreateNew()
      modifies this
      ensures editingUser == None && modalMode == Create && isModalOpen
      ensures users == old(users) && localSearchTerm == old(localSearchTerm) && selectedFilter == old(selectedFilter)
    {
      editingUser := None;
      modalMode := Create;
      isModalOpen := true;
    }

    method HandleEdit(u: User)
      modifies this
      ensures editingUser == Some(u) && modalMode == Edit && isModalOpen
      ensures users == old(users) && localSearchTerm == old(localSearchTerm) && selectedFilter == old(selectedFilter)
    {
      editingUser := Some(u);
      modalMode := Edit;
      isModalOpen := true;
    }

    method HandleDelete(id: string)
      modifies this
      ensures users == Deleted(old(users), id)
      ensures isModalOpen == old(isModalOpen) && editingUser == old(editingUser) && modalMode == old(modalMode)
      ensures localSearchTerm == old(localSearchTerm) && selectedFilter == old(selectedFilter)
    {
      users := Deleted(users, id);
    }

    method ToggleUserStatus(id: string)
      modifies this
      ensures users == Toggled(old(users), id)
      ensures isModalOpen == old(isModalOpen) && editingUser == old(editingUser) && modalMode == old(modalMode)
      ensures localSearchTerm == old(localSearchTerm) && selectedFilter == old(selectedFilter)
    {
      users := Toggled(users, id);
    }

    /** `handleSaveUser`: create appends, edit replaces; in edit mode without an edited user
      * nothing happens. */
    method HandleSaveUser(form: UserForm, id: string, now: string)
      modifies this
      ensures modalMode == Create ==> users == Created(old(users), form, id, now)
      ensures modalMode == Edit && editingUser.Some? ==> users == Edited(old(users), editingUser.value, form)
      ensures modalMode == Edit && editingUser.None? ==> users == old(users)
      ensures isModalOpen == old(isModalOpen) && editingUser == old(editingUser) && modalMode == old(modalMode)
      ensures localSearchTerm == old(localSearchTerm) && selectedFilter == old(selectedFilter)
    {
      if modalMode == Create {
        users := Created(users, form, id, now);
      } else if editingUser.Some? {
        users := Edited(users, editingUser.value, form);
      }
    }

    method HandleCloseModal()
      modifies this
      ensures !isModalOpen && editingUser == None
      ensures users == old(users) && modalMode == old(modalMode)
      ensures localSearchTerm == old(localSearchTerm) && selectedFilter == old(selectedFilter)
    {
      isModalOpen := false;
      editingUser := None;
    }

    method SetLocalSearchTerm(term: string)
      modifies this
      ensures localSearchTerm == term
      ensures users == old(users) && selectedFilter == old(selectedFilter)
      ensures isModalOpen == old(isModalOpen) && editingUser == old(editingUser) && modalMode == old(modalMode)
    {
      localSearchTerm := term;
    }

    method SetSelectedFilter(filter: string)
      modifies this
      ensures selectedFilter == filter
      ensures users == old(users) && localSearchTerm == old(localSearchTerm)
      ensures isModalOpen == old(isModalOpen) && editingUser == old(editingUser) && modalMode == old(modalMode)
    {
      selectedFilter := filter;
    }
  }
}
