/**
 * The global search: a case-insensitive substring filter over four in-memory collections
 * (users, resources, security areas, activities) that emits typed result records, users
 * first, then resources, areas and activities, each group in the collection's order.
 */
module SearchContext {
  import opened Wrappers
  import opened Text
  import opened Seqs
  import opened Types

  /** The type tag of a result: 'user', 'resource', 'security' or 'activity'. */
  datatype ResultType = UserType | ResourceType | SecurityType | ActivityType

  /** The record a result was built from. */
  datatype Payload =
    | UserData(user: User)
    | ResourceData(recurso: Recurso)
    | AreaData(area: AreaSeguranca)
    | ActivityData(activity: Atividade)

  datatype SearchResult = SearchResult(
    id: string, kind: ResultType, title: string, subtitle: string, description: string, data: Payload)

  /** The four collections the search scans. */
  datatype Collections = Collections(
    users: seq<User>, recursos: seq<Recurso>, areas: seq<AreaSeguranca>, activities: seq<Atividade>)

  function TypeTag(t: ResultType): string {
    match t
    case UserType => "user"
    case ResourceType => "resource"
    case SecurityType => "security"
    case ActivityType => "activity"
  }

  /** The position of a type's group in the result list. */
  function GroupRank(t: ResultType): nat {
    match t
    case UserType => 0
    case ResourceType => 1
    case SecurityType => 2
    case ActivityType => 3
  }

  function PayloadType(p: Payload): ResultType {
    match p
    case UserData(_) => UserType
    case ResourceData(_) => ResourceType
    case AreaData(_) => SecurityType
    case ActivityData(_) => ActivityType
  }

  function PayloadId(p: Payload): string {
    match p
    case UserData(u) => u.id
    case ResourceData(r) => r.id
    case AreaData(a) => a.id
    case ActivityData(x) => x.id
  }

  // The searchable fields of each record, compared with the lower-cased term `q`.

  predicate UserMatches(q: string, u: User) {
    ContainsFolded(u.nome, q) || ContainsFolded(u.email, q) || ContainsFolded(u.cargo, q)
  }

  predicate ResourceMatches(q: string, r: Recurso) {
    ContainsFolded(r.nome, q) || ContainsFolded(r.descricao, q) ||
    ContainsFolded(r.localizacao, q) || ContainsFolded(r.responsavel, q)
  }

  /** An area matches on its name or on its raw level code (`'restrito'`), not on a label. */
  predicate AreaMatches(q: string, a: AreaSeguranca) {
    ContainsFolded(a.nome, q) || ContainsFolded(NivelAreaCode(a.nivel), q)
  }

  predicate ActivityMatches(q: string, x: Atividade) {
    ContainsFolded(x.descricao, q) || ContainsFolded(x.usuario, q) || ContainsFolded(TipoAtividadeCode(x.tipo), q)
  }

  // The result each kind of record produces.

  function UserResult(u: User): SearchResult {
    SearchResult("user-" + u.id, UserType, u.nome, u.cargo, u.email, UserData(u))
  }

  function ResourceResult(r: Recurso): SearchResult {
    SearchResult("resource-" + r.id, ResourceType, r.nome,
      CategoriaCode(r.categoria) + " - " + StatusRecursoCode(r.status), r.localizacao, ResourceData(r))
  }

  function AreaResult(a: AreaSeguranca): SearchResult {
    SearchResult("security-" + a.id, SecurityType, a.nome, "Nível " + NivelAreaCode(a.nivel),
      DecimalString(|a.acessosPermitidos|) + " usuários com acesso", AreaData(a))
  }

  function ActivityResult(x: Atividade): SearchResult {
    SearchResult("activity-" + x.id, ActivityType, x.descricao,
      TipoAtividadeCode(x.tipo) + " - " + StatusAtividadeCode(x.status), "Por " + x.usuario, ActivityData(x))
  }

  /** What one `forEach` over a collection pushes: the result of every record that matches. */
  function Hits<T>(q: string, matches: (string, T) -> bool, toResult: T -> SearchResult, s: seq<T>): seq<SearchResult>
  {
    if s == [] then []
    else Hits(q, matches, toResult, s[..|s| - 1]) + (if matches(q, s[|s| - 1]) then [toResult(s[|s| - 1])] else [])
  }

  /** The four passes one after the other, for the lower-cased term `q`. */
  function AllHits(q: string, db: Collections): seq<SearchResult> {
    Hits(q, UserMatches, UserResult, db.users) +
    Hits(q, ResourceMatches, ResourceResult, db.recursos) +
    Hits(q, AreaMatches, AreaResult, db.areas) +
    Hits(q, ActivityMatches, ActivityResult, db.activities)
  }

  /** `searchTerm || localSearchTerm`, as the three list pages compute their active term: the
    * shared term when it is non-empty, otherwise the page's own. */
  function ActiveTerm(global: string, local: string): string {
    if global != "" then global else local
  }

  /** `performSearch(term)`: nothing for a term that is blank once trimmed; otherwise the
    * term is lower-cased (but not trimmed) and the four collections are scanned. */
  function Search(term: string, db: Collections): seq<SearchResult> {
    if IsBlank(term) then [] else AllHits(ToLower(term), db)
  }

  /** One group holds at most one result per record, the result of every matching record,
    * and nothing that is not the result of a matching record. */
  lemma {:induction false} HitsSpec<T>(q: string, matches: (string, T) -> bool, toResult: T -> SearchResult, s: seq<T>)
    ensures |Hits(q, matches, toResult, s)| <= |s|
    ensures forall x :: x in s && matches(q, x) ==> toResult(x) in Hits(q, matches, toResult, s)
    ensures forall r :: r in Hits(q, matches, toResult, s) ==> exists x :: x in s && matches(q, x) && r == toResult(x)
  {
    if s != [] {
      var init, last := s[..|s| - 1], s[|s| - 1];
      HitsSpec(q, matches, toResult, init);
      assert s == init + [last];
      forall x | x in s && matches(q, x) ensures toResult(x) in Hits(q, matches, toResult, s) {
        if x != last {
          assert x in init;
        }
      }
    }
  }

  /** The group keeps the order of its collection: it is the collection filtered by the match
    * and then turned into results. */
  lemma {:induction false} HitsIsFilterThenMap<T>(q: string, matches: (string, T) -> bool, toResult: T -> SearchResult, s: seq<T>, p: T -> bool)
    requires forall x :: p(x) == matches(q, x)
    ensures Hits(q, matches, toResult, s) == Map(toResult, Filter(p, s))
  {
    if s != [] {
      HitsIsFilterThenMap(q, matches, toResult, s[..|s| - 1], p);
      var last := s[|s| - 1];
      var f := Filter(p, s);
      if p(last) {
        assert f == Filter(p, s[..|s| - 1]) + [last];
        assert f[..|f| - 1] == Filter(p, s[..|s| - 1]);
        assert Map(toResult, f) == Map(toResult, f[..|f| - 1]) + [toResult(last)];
      } else {
        assert f == Filter(p, s[..|s| - 1]);
      }
    }
  }

  /** When distinct records give distinct results, a record's result is in its group exactly
    * when the record matches. */
  lemma HitsExact<T>(q: string, matches: (string, T) -> bool, toResult: T -> SearchResult, s: seq<T>)
    requires forall x, y :: toResult(x) == toResult(y) ==> x == y
    ensures forall x :: x in s ==> (toResult(x) in Hits(q, matches, toResult, s) <==> matches(q, x))
  {
    HitsSpec(q, matches, toResult, s);
  }

  /** Every result of a group satisfies `P` when every matching record's result does. */
  lemma HitsAll<T>(q: string, matches: (string, T) -> bool, toResult: T -> SearchResult, s: seq<T>, P: SearchResult -> bool)
    requires forall x :: x in s && matches(q, x) ==> P(toResult(x))
    ensures forall r :: r in Hits(q, matches, toResult, s) ==> P(r)
  {
    HitsSpec(q, matches, toResult, s);
  }

  /** A blank term yields no results. */
  lemma BlankTermFindsNothing(term: string, db: Collections)
    requires IsBlank(term)
    ensures Search(term, db) == []
  {
  }

  /** Completeness and soundness, record by record: a record's result is in the list exactly
    * when the term is not blank and the lower-cased term occurs in one of the record's
    * lower-cased searchable fields (one lemma per collection). */
  lemma SearchFindsExactlyTheUsers(term: string, db: Collections)
    ensures forall u :: u in db.users ==>
      (UserResult(u) in Search(term, db) <==> !IsBlank(term) && UserMatches(ToLower(term), u))
  {
    if !IsBlank(term) {
      var q := ToLower(term);
      HitsExact(q, UserMatches, UserResult, db.users);
      OtherGroupsHaveTypes(q, db);
    }
  }

  lemma SearchFindsExactlyTheResources(term: string, db: Collections)
    ensures forall r :: r in db.recursos ==>
      (ResourceResult(r) in Search(term, db) <==> !IsBlank(term) && ResourceMatches(ToLower(term), r))
  {
    if !IsBlank(term) {
      var q := ToLower(term);
      HitsExact(q, ResourceMatches, ResourceResult, db.recursos);
      OtherGroupsHaveTypes(q, db);
    }
  }

  lemma SearchFindsExactlyTheAreas(term: string, db: Collections)
    ensures forall a :: a in db.areas ==>
      (AreaResult(a) in Search(term, db) <==> !IsBlank(term) && AreaMatches(ToLower(term), a))
  {
    if !IsBlank(term) {
      var q := ToLower(term);
      HitsExact(q, AreaMatches, AreaResult, db.areas);
      OtherGroupsHaveTypes(q, db);
    }
  }

  lemma SearchFindsExactlyTheActivities(term: string, db: Collections)
    ensures forall x :: x in db.activities ==>
      (ActivityResult(x) in Search(term, db) <==> !IsBlank(term) && ActivityMatches(ToLower(term), x))
  {
    if !IsBlank(term) {
      var q := ToLower(term);
      HitsExact(q, ActivityMatches, ActivityResult, db.activities);
      OtherGroupsHaveTypes(q, db);
    }
  }

  /** Every result comes from a record of the collection its type names, that record matches
    * the term, and the result is built from it: its id is the type prefix and the record's
    * id, and its tag is the one of its collection. */
  predicate Explained(q: string, db: Collections, r: SearchResult) {
    && PayloadType(r.data) == r.kind
    && r.id == TypeTag(r.kind) + "-" + PayloadId(r.data)
    && match r.data
       case UserData(u) => u in db.users && UserMatches(q, u) && r == UserResult(u)
       case ResourceData(x) => x in db.recursos && ResourceMatches(q, x) && r == ResourceResult(x)
       case AreaData(a) => a in db.areas && AreaMatches(q, a) && r == AreaResult(a)
       case ActivityData(x) => x in db.activities && ActivityMatches(q, x) && r == ActivityResult(x)
  }

  lemma SearchResultsAreExplained(term: string, db: Collections)
    ensures forall r :: r in Search(term, db) ==> !IsBlank(term) && Explained(ToLower(term), db, r)
  {
    if !IsBlank(term) {
      var q := ToLower(term);
      var P := r => Explained(q, db, r);
      forall u | u in db.users && UserMatches(q, u) ensures P(UserResult(u)) {
        assert "user-" + u.id == "user" + "-" + u.id;
      }
      forall x | x in db.recursos && ResourceMatches(q, x) ensures P(ResourceResult(x)) {
        assert "resource-" + x.id == "resource" + "-" + x.id;
      }
      forall x | x in db.areas && AreaMatches(q, x) ensures P(AreaResult(x)) {
        assert "security-" + x.id == "security" + "-" + x.id;
      }
      forall x | x in db.activities && ActivityMatches(q, x) ensures P(ActivityResult(x)) {
        assert "activity-" + x.id == "activity" + "-" + x.id;
      }
      HitsAll(q, UserMatches, UserResult, db.users, P);
      HitsAll(q, ResourceMatches, ResourceResult, db.recursos, P);
      HitsAll(q, AreaMatches, AreaResult, db.areas, P);
      HitsAll(q, ActivityMatches, ActivityResult, db.activities, P);
    }
  }

  /** The four groups hold results of four different types, so a result can only be found
    * in the group of its own type. */
  lemma OtherGroupsHaveTypes(q: string, db: Collections)
    ensures forall r :: r in Hits(q, UserMatches, UserResult, db.users) ==> r.kind == UserType
    ensures forall r :: r in Hits(q, ResourceMatches, ResourceResult, db.recursos) ==> r.kind == ResourceType
    ensures forall r :: r in Hits(q, AreaMatches, AreaResult, db.areas) ==> r.kind == SecurityType
    ensures forall r :: r in Hits(q, ActivityMatches, ActivityResult, db.activities) ==> r.kind == ActivityType
  {
    HitsHaveType(q, UserMatches, UserResult, db.users, UserType);
    HitsHaveType(q, ResourceMatches, ResourceResult, db.recursos, ResourceType);
    HitsHaveType(q, AreaMatches, AreaResult, db.areas, SecurityType);
    HitsHaveType(q, ActivityMatches, ActivityResult, db.activities, ActivityType);
  }

  /** Every result of one pass has that pass's type. */
  lemma {:induction false} HitsHaveType<T>(q: string, matches: (string, T) -> bool, toResult: T -> SearchResult, s: seq<T>, t: ResultType)
    requires forall x :: toResult(x).kind == t
    ensures forall i :: 0 <= i < |Hits(q, matches, toResult, s)| ==> Hits(q, matches, toResult, s)[i].kind == t
    ensures forall r :: r in Hits(q, matches, toResult, s) ==> r.kind == t
  {
    if s != [] {
      HitsHaveType(q, matches, toResult, s[..|s| - 1], t);
    }
  }

  /** The results come grouped: users, then resources, then areas, then activities. With
    * `HitsSpec`, each group keeps its collection's order. */
  lemma {:induction false} SearchIsGrouped(term: string, db: Collections)
    ensures var res := Search(term, db);
      forall i, j :: 0 <= i < j < |res| ==> GroupRank(res[i].kind) <= GroupRank(res[j].kind)
  {
    if !IsBlank(term) {
      var q := ToLower(term);
      var a := Hits(q, UserMatches, UserResult, db.users);
      var b := Hits(q, ResourceMatches, ResourceResult, db.recursos);
      var c := Hits(q, AreaMatches, AreaResult, db.areas);
      var d := Hits(q, ActivityMatches, ActivityResult, db.activities);
      HitsHaveType(q, UserMatches, UserResult, db.users, UserType);
      HitsHaveType(q, ResourceMatches, ResourceResult, db.recursos, ResourceType);
      HitsHaveType(q, AreaMatches, AreaResult, db.areas, SecurityType);
      HitsHaveType(q, ActivityMatches, ActivityResult, db.activities, ActivityType);
      var res := a + b + c + d;
      assert forall i :: 0 <= i < |res| ==> (GroupRank(res[i].kind) ==
        if i < |a| then 0 else if i < |a| + |b| then 1 else if i < |a| + |b| + |c| then 2 else 3);
    }
  }

  /** Each record contributes at most one result. */
  lemma SearchIsBounded(term: string, db: Collections)
    ensures |Search(term, db)| <= |db.users| + |db.recursos| + |db.areas| + |db.activities|
  {
    if !IsBlank(term) {
      var q := ToLower(term);
      HitsSpec(q, UserMatches, UserResult, db.users);
      HitsSpec(q, ResourceMatches, ResourceResult, db.recursos);
      HitsSpec(q, AreaMatches, AreaResult, db.areas);
      HitsSpec(q, ActivityMatches, ActivityResult, db.activities);
    }
  }

  // The collections the provider searches.

  const MockUsers: seq<User> := [
    User("1", "Bruce Wayne", "bruce@wayneind.com", "CEO", Admin, true, "2024-01-15T10:30:00Z", None),
    User("2", "Lucius Fox", "lucius@wayneind.com", "CTO", Gerente, true, "2024-01-15T09:15:00Z", None),
    User("3", "Alfred Pennyworth", "alfred@wayneind.com", "Gerente de Segurança", Gerente, true, "2024-01-15T08:45:00Z", None),
    User("4", "Selina Kyle", "selina@wayneind.com", "Analista de Sistemas", Funcionario, true, "2024-01-14T17:20:00Z", None)
  ]

  const MockRecursos: seq<Recurso> := [
    Recurso("1", "Batmóvel", Veiculo, Disponivel, "Batcaverna - Garagem Principal", "Alfred Pennyworth",
      "2020-06-15T00:00:00Z", 50000000.0, "Veículo blindado de alta performance"),
    Recurso("2", "Sistema de Segurança Quantum", Seguranca, EmUso, "Torre Wayne - Andar 50", "Lucius Fox",
      "2023-03-20T00:00:00Z", 15000000.0, "Sistema avançado de monitoramento"),
    Recurso("3", "Computador Quântico", Equipamento, Disponivel, "Laboratório de Pesquisa", "Lucius Fox",
      "2023-01-10T00:00:00Z", 25000000.0, "Processamento de dados avançado"),
    Recurso("4", "Batwing", Veiculo, Manutencao, "Hangar Subterrâneo", "Alfred Pennyworth",
      "2021-08-12T00:00:00Z", 75000000.0, "Aeronave de combate avançada")
  ]

  const MockAreas: seq<AreaSeguranca> := [
    AreaSeguranca("1", "Laboratório de Pesquisa", Restrito, ["bruce@wayneind.com", "lucius@wayneind.com"],
      "2024-01-10T14:30:00Z", Ativo, "", "", "", [], []),
    AreaSeguranca("2", "Garagem de Veículos", Alto, ["bruce@wayneind.com", "alfred@wayneind.com"],
      "2024-01-12T09:15:00Z", Ativo, "", "", "", [], []),
    AreaSeguranca("3", "Sala de Servidores", Alto, ["lucius@wayneind.com", "admin@wayneind.com"],
      "2024-01-14T16:45:00Z", Alerta, "", "", "", [], [])
  ]

  const MockActivities: seq<Atividade> := [
    Atividade("1", Acesso, "Acesso autorizado à Área de Pesquisa", "Lucius Fox", "2024-01-15T10:30:00Z", Sucesso),
    Atividade("2", RecursoAtividade, "Batmóvel adicionado ao inventário", "Alfred Pennyworth", "2024-01-15T09:45:00Z", Sucesso),
    Atividade("3", SegurancaAtividade, "Falha na autenticação - Tentativa de acesso negada", "Sistema",
      "2024-01-15T09:15:00Z", Falha)
  ]

  const MockCollections: Collections := Collections(MockUsers, MockRecursos, MockAreas, MockActivities)

  /** Case does not matter: "BRUCE" finds Bruce Wayne's user record, as "bruce" does. */
  lemma SearchFindsBruce(db: Collections, u: User)
    requires u in db.users && u.nome == "Bruce Wayne"
    ensures UserResult(u) in Search("BRUCE", db) && UserResult(u) in Search("bruce", db)
  {
    NotBlank("BRUCE", 0);
    NotBlank("bruce", 0);
    LowerWithoutCapitals("bruce");
    assert ToLower("BRUCE") == "bruce" by { assert forall i | 0 <= i < 5 :: LowerChar("BRUCE"[i]) == "bruce"[i]; }
    assert ToLower(u.nome)[..5] == "bruce" by { assert forall i | 0 <= i < 5 :: LowerChar(u.nome[i]) == "bruce"[i]; }
    assert OccursAt(ToLower(u.nome), "bruce", 0);
    UserFound("BRUCE", db, u);
    UserFound("bruce", db, u);
  }

  /** An area is found by its raw level code: "restrito" finds every restricted area, and its
    * result reads "Nível restrito" and counts the users allowed in. */
  lemma SearchFindsAreaByLevelCode(db: Collections, a: AreaSeguranca)
    requires a in db.areas && a.nivel == Restrito
    ensures AreaResult(a) in Search("restrito", db)
    ensures AreaResult(a).subtitle == "Nível restrito"
    ensures AreaResult(a).description == DecimalString(|a.acessosPermitidos|) + " usuários com acesso"
  {
    var term := "restrito";
    NotBlank(term, 0);
    LowerWithoutCapitals(term);
    assert OccursAt(ToLower(NivelAreaCode(a.nivel)), term, 0);
    AreaFound(term, db, a);
  }

  /** The blank check trims the term but the search does not: a term that starts with white
    * space only finds a user one of whose name, email and role holds white space. */
  lemma LeadingSpaceIsSearchedFor(term: string, db: Collections, u: User)
    requires |term| > 0 && IsWhitespace(term[0]) && u in db.users
    requires UserResult(u) in Search(term, db)
    ensures HasWhitespace(u.nome) || HasWhitespace(u.email) || HasWhitespace(u.cargo)
  {
    SearchFindsExactlyTheUsers(term, db);
    var q := ToLower(term);
    assert q[0] == term[0];
    if ContainsFolded(u.nome, q) {
      WhitespaceSurvivesLowering(u.nome, q);
    } else if ContainsFolded(u.email, q) {
      WhitespaceSurvivesLowering(u.email, q);
    } else {
      WhitespaceSurvivesLowering(u.cargo, q);
    }
  }

  predicate HasWhitespace(s: string) {
    exists i | 0 <= i < |s| :: IsWhitespace(s[i])
  }

  /** Lower-casing makes no white space: a query that starts with white space occurs in a
    * lower-cased text only if the text holds white space. */
  lemma WhitespaceSurvivesLowering(s: string, q: string)
    requires |q| > 0 && IsWhitespace(q[0]) && ContainsFolded(s, q)
    ensures HasWhitespace(s)
  {
    var i :| 0 <= i <= |ToLower(s)| - |q| && OccursAt(ToLower(s), q, i);
    assert ToLower(s)[i..i + |q|][0] == ToLower(s)[i];
    assert IsWhitespace(s[i]);
  }

  lemma UserFound(term: string, db: Collections, u: User)
    requires u in db.users && !IsBlank(term) && UserMatches(ToLower(term), u)
    ensures UserResult(u) in Search(term, db)
  {
    SearchFindsExactlyTheUsers(term, db);
  }

  lemma AreaFound(term: string, db: Collections, a: AreaSeguranca)
    requires a in db.areas && !IsBlank(term) && AreaMatches(ToLower(term), a)
    ensures AreaResult(a) in Search(term, db)
  {
    SearchFindsExactlyTheAreas(term, db);
  }

  /** One `forEach` pass of `performSearch`: push the result of every record that matches. */
  method CollectHits<T>(q: string, matches: (string, T) -> bool, toResult: T -> SearchResult, s: seq<T>)
    returns (hits: seq<SearchResult>)
    ensures hits == Hits(q, matches, toResult, s)
  {
    hits := [];
    var i := 0;
    while i < |s|
      invariant 0 <= i <= |s|
      invariant hits == Hits(q, matches, toResult, s[..i])
    {
      assert s[..i + 1][..i] == s[..i];
      if matches(q, s[i]) {
        hits := hits + [toResult(s[i])];
      }
      i := i + 1;
    }
    assert s[..i] == s;
  }

  /** The scan of `performSearch`: the term is lower-cased once and the four passes run in turn. */
  method CollectResults(term: string, db: Collections) returns (results: seq<SearchResult>)
    ensures results == AllHits(ToLower(term), db)
  {
    var q := ToLower(term);
    var users := CollectHits(q, UserMatches, UserResult, db.users);
    var recursos := CollectHits(q, ResourceMatches, ResourceResult, db.recursos);
    var areas := CollectHits(q, AreaMatches, AreaResult, db.areas);
    var activities := CollectHits(q, ActivityMatches, ActivityResult, db.activities);
    results := users + recursos + areas + activities;
  }

  /** The search provider's state: the shared term, the visible results and the "searching"
    * flag. The 300 ms delays (the debounce of the term and the delay before the results are
    * shown) are taken as instantaneous. */
  class SearchProvider {
    const db: Collections
    var searchTerm: string
    var searchResults: seq<SearchResult>
    var isSearching: bool

    /** The provider searches the fixed collections it is built with. */
    constructor ()
      ensures db == MockCollections && searchTerm == "" && searchResults == [] && !isSearching
    {
      db := MockCollections;
      searchTerm := "";
      searchResults := [];
      isSearching := false;
    }

    /** A blank term empties the results and leaves the flag alone; any other term raises
      * the flag, scans, shows the results and lowers the flag. */
    method PerformSearch(term: string)
      modifies this
      ensures searchResults == Search(term, db)
      ensures isSearching == (if IsBlank(term) then old(isSearching) else false)
      ensures searchTerm == old(searchTerm)
    {
      if IsBlank(term) {
        searchResults := [];
        return;
      }
      isSearching := true;
      var results := CollectResults(term, db);
      searchResults := results;
      isSearching := false;
    }

    /** Typing in a search box: the shared term changes and the (debounced) search runs on it. */
    method SetSearchTerm(term: string)
      modifies this
      ensures searchTerm == term && searchResults == Search(term, db)
      ensures isSearching == (if IsBlank(term) then old(isSearching) else false)
    {
      searchTerm := term;
      PerformSearch(term);
    }

    /** `clearSearch`: the term becomes empty and the results are emptied. */
    method ClearSearch()
      modifies this
      ensures searchTerm == "" && searchResults == [] && isSearching == old(isSearching)
    {
      searchTerm := "";
      searchResults := [];
    }
  }
}
