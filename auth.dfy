/**
 * The session: a fixed table of accounts, logging in and out, and the three-level access
 * check every page and menu entry relies on.
 */
module Auth {
  import opened Wrappers
  import opened Types
  import opened Storage
  import opened JsonValue

  /** The rank table of `hasPermission`, looked up by level code. Any other text (including
    * the names every object inherits, such as "toString", which do not give a number) has no
    * rank, and a comparison with no rank is false. */
  function RankOf(code: string): Option<nat> {
    if code == "funcionario" then Some(1)
    else if code == "gerente" then Some(2)
    else if code == "admin" then Some(3)
    else None
  }

  /** The order of the levels, stated on the enumeration itself. */
  function LevelRank(n: Nivel): nat {
    match n
    case Funcionario => 1
    case Gerente => 2
    case Admin => 3
  }

  /** `hasPermission(nivel)` for a logged-in account record (`None` when nobody is logged in).
    * `SessionPermission` is the same check on the session value as the program holds it. */
  predicate HasPermission(user: Option<User>, nivel: string) {
    user.Some? && RankOf(nivel).Some? && RankOf(NivelCode(user.value.nivel)).Some? &&
    RankOf(NivelCode(user.value.nivel)).value >= RankOf(nivel).value
  }

  /** With nobody logged in nothing is permitted. */
  lemma NoUserNoPermission(nivel: string)
    ensures !HasPermission(None, nivel)
  {
  }

  /** A level is granted exactly when the user's level is at least as high. */
  lemma PermissionFollowsRank(u: User, n: Nivel)
    ensures HasPermission(Some(u), NivelCode(n)) <==> LevelRank(u.nivel) >= LevelRank(n)
  {
  }

  /** A text that is not one of the three level codes is never granted. */
  lemma UnknownLevelNeverGranted(user: Option<User>, nivel: string)
    requires nivel != "funcionario" && nivel != "gerente" && nivel != "admin"
    ensures !HasPermission(user, nivel)
  {
  }

  /** Permission is monotone: granting a level grants every lower one, and an administrator is
    * granted all three. */
  lemma PermissionIsMonotone(user: Option<User>, a: Nivel, b: Nivel)
    ensures HasPermission(user, NivelCode(a)) && LevelRank(b) <= LevelRank(a) ==> HasPermission(user, NivelCode(b))
    ensures user.Some? && user.value.nivel == Admin ==> HasPermission(user, NivelCode(b))
  {
  }

  const Accounts: seq<User> := [
    User("1", "Bruce Wayne", "bruce@wayneind.com", "CEO", Admin, true, "2024-01-15T10:30:00Z", None),
    User("2", "Lucius Fox", "lucius@wayneind.com", "CTO", Gerente, true, "2024-01-15T09:15:00Z", None),
    User("3", "Alfred Pennyworth", "alfred@wayneind.com", "Gerente de Segurança", Gerente, true, "2024-01-15T08:45:00Z", None)
  ]

  const Password := "123456"

  /** `mockUsers.find(u => u.email === email)`. */
  function FindAccount(email: string, accounts: seq<User>): (r: Option<User>)
    ensures r.Some? ==> r.value in accounts && r.value.email == email
    ensures r.None? <==> forall u :: u in accounts ==> u.email != email
  {
    if accounts == [] then None
    else if accounts[0].email == email then Some(accounts[0])
    else FindAccount(email, accounts[1..])
  }

  /** The account a login with these credentials opens, if any. */
  function Authenticate(email: string, senha: string): Option<User> {
    var found := FindAccount(email, Accounts);
    if found.Some? && senha == Password then found else None
  }

  /** A login succeeds exactly for the three table addresses with the shared password; the
    * account's `ativo` flag plays no part. */
  lemma LoginAcceptsExactly(email: string, senha: string)
    ensures Authenticate(email, senha).Some? <==>
      (email == "bruce@wayneind.com" || email == "lucius@wayneind.com" || email == "alfred@wayneind.com") && senha == "123456"
    ensures Authenticate(email, senha).Some? ==> Authenticate(email, senha).value.email == email
  {
    var found := FindAccount(email, Accounts);
    if email == "bruce@wayneind.com" || email == "lucius@wayneind.com" || email == "alfred@wayneind.com" {
      assert Accounts[0].email == "bruce@wayneind.com";
      assert Accounts[1].email == "lucius@wayneind.com";
      assert Accounts[2].email == "alfred@wayneind.com";
      assert found.Some?;
    }
  }

  /** A user record as `JSON.stringify` writes it, and as a login keeps it in the session. */
  function UserToJson(u: User): Json {
    var fields := map[
      "id" := JString(u.id), "nome" := JString(u.nome), "email" := JString(u.email),
      "cargo" := JString(u.cargo), "nivel" := JString(NivelCode(u.nivel)), "ativo" := JBool(u.ativo),
      "ultimoAcesso" := JString(u.ultimoAcesso)];
    JObject(if u.foto.Some? then fields["foto" := JString(u.foto.value)] else fields)
  }

  /** `hasPermission(nivel)` on the session value, which is whatever the load effect parsed or
    * the record a login set (`None` is the initial `null`). A falsy value grants nothing; a
    * truthy one grants by the rank of its `nivel` member when that is a level code. */
  predicate SessionPermission(session: Option<Json>, nivel: string) {
    Truthy(session) && RankOf(nivel).Some? &&
    match Get(session.value, "nivel")
    case Some(JString(c)) => RankOf(c).Some? && RankOf(c).value >= RankOf(nivel).value
    case _ => false
  }

  /** On the record of an account the session check is the account check. */
  lemma SessionOfAccount(u: User, nivel: string)
    ensures SessionPermission(Some(UserToJson(u)), nivel) == HasPermission(Some(u), nivel)
  {
    assert Get(UserToJson(u), "nivel") == Some(JString(NivelCode(u.nivel)));
  }

  /** A session value that is `null`, or an object without a level, is still a session but
    * grants nothing. */
  lemma ValueWithoutLevelGrantsNothing(session: Json, nivel: string)
    requires session == JNull || (session.JObject? && "nivel" !in session.fields)
    ensures !SessionPermission(Some(session), nivel)
  {
  }

  /** What the load effect finds: no session (the key is missing or empty), text on which
    * `JSON.parse` throws, or the parsed value, whatever it is. */
  datatype LoadOutcome = NoSession | ParseError | Restored(value: Json)

  function Restore(saved: Option<string>, parse: string -> Option<Json>): (r: LoadOutcome)
    ensures r.NoSession? <==> saved.None? || saved.value == ""
    ensures r.ParseError? <==> saved.Some? && saved.value != "" && parse(saved.value).None?
    ensures r.Restored? ==> saved.Some? && parse(saved.value) == Some(r.value)
  {
    if saved.None? || saved.value == "" then NoSession
    else match parse(saved.value)
      case None => ParseError
      case Some(v) => Restored(v)
  }

  /** A session stored by a login comes back as the same record, with the same rights, when
    * parsing inverts serialising (the serialised text of a record is never empty). */
  lemma ReloadAfterLogin(u: User, parse: string -> Option<Json>, stringify: Json -> string, nivel: string)
    requires stringify(UserToJson(u)) != ""
    requires parse(stringify(UserToJson(u))) == Some(UserToJson(u))
    ensures Restore(Some(stringify(UserToJson(u))), parse) == Restored(UserToJson(u))
    ensures SessionPermission(Some(UserToJson(u)), nivel) == HasPermission(Some(u), nivel)
  {
    SessionOfAccount(u, nivel);
  }

  /** A stored `"null"` is restored as a session: the program counts it as logged in, with no
    * rights. */
  lemma StoredNullIsASession(parse: string -> Option<Json>, nivel: string)
    requires parse("null") == Some(JNull)
    ensures Restore(Some("null"), parse) == Restored(JNull)
    ensures !SessionPermission(Some(JNull), nivel)
  {
  }

  class AuthProvider {
    /** The session value: `None` is the initial `null`. */
    var user: Option<Json>
    var isAuthenticated: bool
    const store: Store
    /** `JSON.stringify`. */
    const stringify: Json -> string

    constructor (store: Store, stringify: Json -> string)
      ensures this.store == store && this.stringify == stringify && user.None? && !isAuthenticated
    {
      this.store := store;
      this.stringify := stringify;
      user := None;
      isAuthenticated := false;
    }

    /** The rights of the current session, as `hasPermission` gives them. */
    predicate Permits(nivel: string)
      reads this
    {
      SessionPermission(user, nivel)
    }

    /** The load effect: any non-empty stored text is parsed and becomes the session, which
      * then counts as logged in, whatever value it is. Text that does not parse makes
      * `JSON.parse` throw out of the effect: `threw` is set and nothing changes. */
    method LoadSession(parse: string -> Option<Json>) returns (threw: bool)
      modifies this
      ensures var outcome := Restore(store.GetItem(UserKey), parse);
        && (threw <==> outcome.ParseError?)
        && (if outcome.Restored? then user == Some(outcome.value) && isAuthenticated
            else user == old(user) && isAuthenticated == old(isAuthenticated))
    {
      var saved := store.GetItem(UserKey);
      threw := false;
      if saved.Some? && saved.value != "" {
        var parsed := parse(saved.value);
        if parsed.None? {
          threw := true;
        } else {
          user := parsed;
          isAuthenticated := true;
        }
      }
    }

    /** `login(email, senha)`: on success the account's record becomes the session, which is
      * authenticated and stored; on failure nothing changes. */
    method Login(email: string, senha: string) returns (ok: bool)
      modifies this, store
      ensures ok <==> Authenticate(email, senha).Some?
      ensures ok ==> user == Some(UserToJson(Authenticate(email, senha).value)) && isAuthenticated &&
                     store.items == old(store.items)[UserKey := stringify(user.value)]
      ensures ok ==> forall nivel :: Permits(nivel) == HasPermission(Authenticate(email, senha), nivel)
      ensures !ok ==> user == old(user) && isAuthenticated == old(isAuthenticated) && store.items == old(store.items)
    {
      var found := FindAccount(email, Accounts);
      if found.Some? && senha == Password {
        user := Some(UserToJson(found.value));
        isAuthenticated := true;
        store.SetItem(UserKey, stringify(UserToJson(found.value)));
        forall nivel: string
          ensures Permits(nivel) == HasPermission(found, nivel)
        {
          SessionOfAccount(found.value, nivel);
        }
        return true;
      }
      return false;
    }

    /** `logout()`: nobody is logged in, and the stored session is gone. */
    method Logout()
      modifies this, store
      ensures user.None? && !isAuthenticated
      ensures forall nivel :: !Permits(nivel)
      ensures store.items == old(store.items) - {UserKey}
    {
      user := None;
      isAuthenticated := false;
      store.RemoveItem(UserKey);
    }
  }
}
