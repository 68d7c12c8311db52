/**
 * The translation tables and the language preference: `t(key)` looks the key up in the
 * current language's table and falls back to the key itself.
 */
module Language {
  import opened Wrappers
  import opened Storage

  const DefaultLanguage := "pt-BR"

  /**
   * The keys of the translation tables. Both tables list the same 87 keys in the same order, so
   * the model keeps that column once and each table as its column of texts, position by
   * position; the navigation section is kept apart from the other sections.
   */
  const NavigationKeys: seq<string> :=
    ["nav.dashboard", "nav.security", "nav.resources", "nav.users", "nav.settings", "nav.logout"]

  const TranslationKeys: seq<string> := NavigationKeys + OtherKeys

  const OtherKeys: seq<string> :=
    // Dashboard
    ["dashboard.title", "dashboard.totalUsers", "dashboard.activeUsers",
     "dashboard.totalResources", "dashboard.availableResources", "dashboard.securityAreas",
     "dashboard.activeAlerts", "dashboard.recentActivities", "dashboard.systemStatus",
     "dashboard.mainServer", "dashboard.securitySystem", "dashboard.backup", "dashboard.lastSync"] +
    // Security
    ["security.title", "security.subtitle", "security.newArea", "security.searchAreas",
     "security.allLevels", "security.lowLevel", "security.mediumLevel", "security.highLevel",
     "security.restricted", "security.viewDetails", "security.lastInspection",
     "security.usersWithAccess"] +
    // Resources
    ["resources.title", "resources.subtitle", "resources.newResource", "resources.searchResources",
     "resources.allCategories", "resources.equipment", "resources.vehicles", "resources.security",
     "resources.edit", "resources.delete", "resources.acquiredOn"] +
    // Users
    ["users.title", "users.subtitle", "users.newUser", "users.searchUsers", "users.allLevels",
     "users.administrators", "users.managers", "users.employees", "users.user", "users.position",
     "users.level", "users.status", "users.lastAccess", "users.actions", "users.active",
     "users.inactive"] +
    // Settings
    ["settings.title", "settings.subtitle", "settings.notifications", "settings.security",
     "settings.system", "settings.backup", "settings.save", "settings.language",
     "settings.saveSuccess"] +
    // Login
    ["login.title", "login.subtitle", "login.email", "login.password", "login.login",
     "login.logging", "login.testCredentials"] +
    // Common
    ["common.search", "common.online", "common.active", "common.inProgress", "common.available",
     "common.inUse", "common.maintenance", "common.inactive", "common.stable", "common.allActive"] +
    // Notifications
    ["notifications.title", "notifications.markAllRead", "notifications.noNotifications"]

  const PtBRNavigation: seq<string> :=
    ["Dashboard", "Segurança", "Recursos", "Usuários", "Configurações", "Sair"]

  const PtBRTexts: seq<string> := PtBRNavigation + PtBROther

  const PtBROther: seq<string> :=
    // Dashboard
    ["Dashboard", "Total de Usuários", "Usuários Ativos", "Recursos Totais",
     "Recursos Disponíveis", "Áreas de Segurança", "Alertas Ativos", "Atividades Recentes",
     "Status do Sistema", "Servidor Principal", "Sistema de Segurança", "Backup",
     "Última Sincronização"] +
    // Security
    ["Controle de Segurança", "Gerencie áreas restritas e controle de acesso", "Nova Área",
     "Buscar áreas de segurança...", "Todos os Níveis", "Nível Baixo", "Nível Médio", "Nível Alto",
     "Restrito", "Ver Detalhes", "Última vistoria", "usuários com acesso"] +
    // Resources
    ["Gestão de Recursos", "Gerencie equipamentos, veículos e sistemas de segurança",
     "Novo Recurso", "Buscar recursos...", "Todas as Categorias", "Equipamentos", "Veículos",
     "Segurança", "Editar", "Excluir", "Adquirido em"] +
    // Users
    ["Gerenciamento de Usuários", "Controle usuários e permissões de acesso", "Novo Usuário",
     "Buscar usuários...", "Todos os Níveis", "Administradores", "Gerentes", "Funcionários",
     "Usuário", "Cargo", "Nível", "Status", "Último Acesso", "Ações", "Ativo", "Inativo"] +
    // Settings
    ["Configurações do Sistema", "Gerencie as configurações de segurança e preferências",
     "Notificações", "Segurança", "Sistema", "Backup & Dados", "Salvar Configurações", "Idioma",
     "Configurações salvas com sucesso!"] +
    // Login
    ["Wayne Industries", "Sistema de Gerenciamento Interno", "Email", "Senha", "Entrar",
     "Entrando...", "Credenciais de Teste:"] +
    // Common
    ["Buscar...", "Online", "Ativo", "Em Andamento", "Disponível", "Em Uso", "Manutenção",
     "Inativo", "Estável", "Todas ativas"] +
    // Notifications
    ["Notificações", "Marcar todas como lidas", "Nenhuma notificação"]

  const EnUSNavigation: seq<string> :=
    ["Dashboard", "Security", "Resources", "Users", "Settings", "Logout"]

  const EnUSTexts: seq<string> := EnUSNavigation + EnUSOther

  const EnUSOther: seq<string> :=
    // Dashboard
    ["Dashboard", "Total Users", "Active Users", "Total Resources", "Available Resources",
     "Security Areas", "Active Alerts", "Recent Activities", "System Status", "Main Server",
     "Security System", "Backup", "Last Sync"] +
    // Security
    ["Security Control", "Manage restricted areas and access control", "New Area",
     "Search security areas...", "All Levels", "Low Level", "Medium Level", "High Level",
     "Restricted", "View Details", "Last inspection", "users with access"] +
    // Resources
    ["Resource Management", "Manage equipment, vehicles and security systems", "New Resource",
     "Search resources...", "All Categories", "Equipment", "Vehicles", "Security", "Edit",
     "Delete", "Acquired on"] +
    // Users
    ["User Management", "Control users and access permissions", "New User", "Search users...",
     "All Levels", "Administrators", "Managers", "Employees", "User", "Position", "Level",
     "Status", "Last Access", "Actions", "Active", "Inactive"] +
    // Settings
    ["System Settings", "Manage security settings and preferences", "Notifications", "Security",
     "System", "Backup & Data", "Save Settings", "Language", "Settings saved successfully!"] +
    // Login
    ["Wayne Industries", "Internal Management System", "Email", "Password", "Login",
     "Logging in...", "Test Credentials:"] +
    // Common
    ["Search...", "Online", "Active", "In Progress", "Available", "In Use", "Maintenance",
     "Inactive", "Stable", "All active"] +
    // Notifications
    ["Notifications", "Mark all as read", "No notifications"]

  /** The texts of a language's table; only "pt-BR" and "en-US" have one. */
  function TableOf(language: string): (r: Option<seq<string>>)
    ensures r.Some? <==> language == "pt-BR" || language == "en-US"
    ensures r.Some? ==> |r.value| == |TranslationKeys|
  {
    if language == "pt-BR" then Some(PtBRTexts)
    else if language == "en-US" then Some(EnUSTexts)
    else None
  }

  /** The text a table holds under `key`: the text at the key's position, if the key is one. */
  function Lookup(keys: seq<string>, texts: seq<string>, key: string): (r: Option<string>)
    requires |keys| == |texts|
    ensures r.Some? <==> key in keys
    ensures r.Some? ==> exists i :: 0 <= i < |keys| && keys[i] == key && texts[i] == r.value
  {
    if keys == [] then None
    else if keys[0] == key then Some(texts[0])
    else
      var r := Lookup(keys[1..], texts[1..], key);
      if r.None? then None
      else
        var i :| 0 <= i < |keys| - 1 && keys[1..][i] == key && texts[1..][i] == r.value;
        assert keys[i + 1] == key && texts[i + 1] == r.value;
        r
  }

  /** A key of the first part of a table is answered by that part, whatever follows. */
  lemma {:induction false} LookupInFirstPart(keys: seq<string>, texts: seq<string>, moreKeys: seq<string>, moreTexts: seq<string>, key: string)
    requires |keys| == |texts| && |moreKeys| == |moreTexts| && key in keys
    ensures Lookup(keys + moreKeys, texts + moreTexts, key) == Lookup(keys, texts, key)
  {
    if keys[0] != key {
      assert (keys + moreKeys)[1..] == keys[1..] + moreKeys;
      assert (texts + moreTexts)[1..] == texts[1..] + moreTexts;
      LookupInFirstPart(keys[1..], texts[1..], moreKeys, moreTexts, key);
    }
  }

  /** `t(key)`: the current language's text for the key when there is one and it is not empty,
    * otherwise the key itself. */
  function Translate(language: string, key: string): string {
    match TableOf(language)
    case None => key
    case Some(texts) =>
      var entry := Lookup(TranslationKeys, texts, key);
      if entry.Some? && entry.value != "" then entry.value else key
  }

  /** A key is translated in a language when that language's table holds it. */
  predicate TranslatedIn(language: string, key: string) {
    TableOf(language).Some? && Lookup(TranslationKeys, TableOf(language).value, key).Some?
  }

  /** A lookup gives the key back for a language without a table or a key no table holds, and
    * otherwise the non-empty text the table holds under the key (or the key when that text is
    * empty); a non-empty key never translates to the empty text. */
  lemma TranslateSpec(language: string, key: string)
    ensures TableOf(language).None? ==> Translate(language, key) == key
    ensures key !in TranslationKeys ==> Translate(language, key) == key
    ensures Translate(language, key) == key ||
      (TableOf(language).Some? && Translate(language, key) != "" &&
       exists i :: 0 <= i < |TranslationKeys| && TranslationKeys[i] == key && TableOf(language).value[i] == Translate(language, key))
    ensures key != "" ==> Translate(language, key) != ""
  {
  }

  /** The two tables answer for the same keys: a key is translated in Portuguese exactly when it
    * is translated in English, and exactly when it is one of the table keys. */
  lemma SameKeySet(key: string)
    ensures TranslatedIn("pt-BR", key) <==> TranslatedIn("en-US", key)
    ensures TranslatedIn("pt-BR", key) <==> key in TranslationKeys
  {
  }

  /** The first entries of each table, and the fallback of a language without a table. */
  lemma NavigationLabels()
    ensures Translate("pt-BR", "nav.security") == "Segurança"
    ensures Translate("en-US", "nav.security") == "Security"
    ensures Translate("fr-FR", "nav.security") == "nav.security"
  {
    var k := NavigationKeys;
    assert "nav.security" in k by { assert k[1] == "nav.security"; }
    assert k[1..][0] == k[1];
    assert PtBRNavigation[1..][0] == PtBRNavigation[1];
    assert EnUSNavigation[1..][0] == EnUSNavigation[1];
    LookupInFirstPart(NavigationKeys, PtBRNavigation, OtherKeys, PtBROther, "nav.security");
    LookupInFirstPart(NavigationKeys, EnUSNavigation, OtherKeys, EnUSOther, "nav.security");
  }

  /** The language the load effect ends with: a saved non-empty value, unchecked, or else the
    * language held before. */
  function Loaded(items: map<string, string>, current: string): string {
    ItemOr(items, LanguageKey, current)
  }

  /** A language written by `changeLanguage` is the one the next load picks up, whatever it is;
    * a value other than the two table languages then shows every key untranslated. */
  lemma ChangeThenLoad(items: map<string, string>, lang: string, current: string, key: string)
    requires lang != ""
    ensures Loaded(items[LanguageKey := lang], current) == lang
    ensures lang != "pt-BR" && lang != "en-US" ==> Translate(Loaded(items[LanguageKey := lang], current), key) == key
  {
  }

  /** The language provider's state: the current language, kept in the store. */
  class LanguageProvider {
    var language: string
    const store: Store

    constructor (store: Store)
      ensures language == DefaultLanguage && this.store == store
    {
      language := DefaultLanguage;
      this.store := store;
    }

    /** `t`, for the current language. */
    function T(key: string): string
      reads this
    {
      Translate(language, key)
    }

    /** The load effect: a saved non-empty language replaces the current one, unvalidated. */
    method Load()
      modifies this
      ensures language == Loaded(store.items, old(language))
    {
      var saved := store.GetItem(LanguageKey);
      if saved.Some? && saved.value != "" {
        language := saved.value;
      }
    }

    /** `changeLanguage`: the new language is current and stored. */
    method ChangeLanguage(lang: string)
      modifies this, store
      ensures language == lang
      ensures store.items == old(store.items)[LanguageKey := lang]
    {
      language := lang;
      store.SetItem(LanguageKey, lang);
    }
  }
}
