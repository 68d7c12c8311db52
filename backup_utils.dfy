/**
 * The backup codec: building a backup document, the name of the downloaded file, the
 * validation of an uploaded file, and writing, reading and clearing a restored backup in the
 * store. JSON parsing and serialising are parameters: `parse` gives `None` where `JSON.parse`
 * throws, and `stringify` is `JSON.stringify`.
 */
module BackupUtils {
  import opened Wrappers
  import opened Text
  import opened Seqs
  import opened Types
  import opened JsonValue
  import opened Storage
  import SearchContext
  import Auth

  /** The four ways validation can fail, in the order the checks run. */
  datatype BackupError = InvalidJson | InvalidStructure | InvalidMetadata | InvalidArrays

  function ErrorMessage(e: BackupError): string {
    match e
    case InvalidJson => "Arquivo JSON inválido ou corrompido."
    case InvalidStructure => "Estrutura de backup inválida. Arquivo não contém todos os dados necessários."
    case InvalidMetadata => "Metadados do backup inválidos."
    case InvalidArrays => "Dados de usuários ou recursos inválidos."
  }

  /** The checks of `validateBackupFile` on a parsed value. Reading a member of `null` throws,
    * and the exception handler turns that into the JSON error. */
  function CheckBackup(data: Json): Result<Json, BackupError> {
    if data == JNull then Failure(InvalidJson)
    else if !Truthy(Get(data, "metadata")) || !Truthy(Get(data, "users")) ||
            !Truthy(Get(data, "resources")) || !Truthy(Get(data, "settings")) then Failure(InvalidStructure)
    else if !Truthy(Member(Get(data, "metadata"), "version")) ||
            !Truthy(Member(Get(data, "metadata"), "timestamp")) then Failure(InvalidMetadata)
    else if !IsArray(Get(data, "users")) || !IsArray(Get(data, "resources")) then Failure(InvalidArrays)
    else Success(data)
  }

  /** `validateBackupFile(text)`: text that does not parse gives the JSON error; otherwise the
    * parsed value is checked. */
  function ValidateBackupFile(text: string, parse: string -> Option<Json>): Result<Json, BackupError> {
    match parse(text)
    case None => Failure(InvalidJson)
    case Some(data) => CheckBackup(data)
  }

  /** What a backup document looks like, stated on its own: an object whose `metadata` is an
    * object with a truthy `version` and `timestamp`, whose `users` and `resources` are arrays,
    * and whose `settings` is truthy. */
  predicate IsBackupShape(d: Json) {
    && d.JObject?
    && "metadata" in d.fields && d.fields["metadata"].JObject?
    && Truthy(Get(d.fields["metadata"], "version")) && Truthy(Get(d.fields["metadata"], "timestamp"))
    && "users" in d.fields && d.fields["users"].JArray?
    && "resources" in d.fields && d.fields["resources"].JArray?
    && Truthy(Get(d, "settings"))
  }

  /** Validation accepts exactly the backup-shaped values and then returns the parsed value
    * unchanged. */
  lemma CheckAcceptsExactlyBackups(d: Json)
    ensures CheckBackup(d).Success? <==> IsBackupShape(d)
    ensures CheckBackup(d).Success? ==> CheckBackup(d).value == d
  {
    if IsBackupShape(d) {
      ArrayIsTruthy(Get(d, "users"));
      ArrayIsTruthy(Get(d, "resources"));
    }
  }

  /** Text that does not parse is rejected with the JSON error, and nothing else is checked. */
  lemma UnparseableIsRejected(text: string, parse: string -> Option<Json>)
    requires parse(text).None?
    ensures ValidateBackupFile(text, parse) == Failure(InvalidJson)
  {
  }

  /** The checks run in order: the metadata error only once the four members are truthy, the
    * array error only once the metadata is also sound. */
  lemma ChecksRunInOrder(d: Json)
    ensures CheckBackup(d) == Failure(InvalidStructure) ==>
      d != JNull && !(Truthy(Get(d, "metadata")) && Truthy(Get(d, "users")) && Truthy(Get(d, "resources")) && Truthy(Get(d, "settings")))
    ensures CheckBackup(d) == Failure(InvalidMetadata) ==>
      d.JObject? && Truthy(Get(d, "metadata")) && Truthy(Get(d, "users")) && Truthy(Get(d, "resources")) && Truthy(Get(d, "settings"))
    ensures CheckBackup(d) == Failure(InvalidArrays) ==>
      d.JObject? && Truthy(Get(d, "settings")) && d.fields["metadata"].JObject? &&
      Truthy(Get(d.fields["metadata"], "version")) && Truthy(Get(d.fields["metadata"], "timestamp"))
    ensures CheckBackup(d) == Failure(InvalidJson) <==> d == JNull
  {
  }

  /** The `activities` member is never inspected: replacing it changes no verdict. */
  lemma ActivitiesAreNotInspected(fields: map<string, Json>, v: Json)
    ensures var d, d' := JObject(fields), JObject(fields["activities" := v]);
      CheckBackup(d').Success? == CheckBackup(d).Success? &&
      (CheckBackup(d).Failure? ==> CheckBackup(d') == CheckBackup(d))
  {
    var d, d' := JObject(fields), JObject(fields["activities" := v]);
    assert Get(d', "metadata") == Get(d, "metadata");
    assert Get(d', "users") == Get(d, "users");
    assert Get(d', "resources") == Get(d, "resources");
    assert Get(d', "settings") == Get(d, "settings");
  }

  // Building a backup.

  function ResourceToJson(r: Recurso): Json {
    JObject(map[
      "id" := JString(r.id), "nome" := JString(r.nome), "categoria" := JString(CategoriaCode(r.categoria)),
      "status" := JString(StatusRecursoCode(r.status)), "localizacao" := JString(r.localizacao),
      "responsavel" := JString(r.responsavel), "dataAquisicao" := JString(r.dataAquisicao),
      "valor" := JNumber(r.valor), "descricao" := JString(r.descricao)])
  }

  /** The one activity of a backup. Its type, 'backup', lies outside the activity types of the
    * entity records. A missing `usuario` is left out, as `JSON.stringify` drops `undefined`. */
  function BackupActivity(usuario: Option<Json>, now: string): Json {
    var fields := map[
      "id" := JString("1"), "tipo" := JString("backup"), "descricao" := JString("Backup manual criado pelo usuário"),
      "timestamp" := JString(now), "status" := JString("sucesso")];
    JObject(if usuario.Some? then fields["usuario" := usuario.value] else fields)
  }

  /** The three users and two resources every backup carries. */
  function BackupUsers(): seq<Json> {
    Map(Auth.UserToJson, SearchContext.MockUsers[..3])
  }

  function BackupResources(): seq<Json> {
    Map(ResourceToJson, SearchContext.MockRecursos[..2])
  }

  /** The backup document for a given activity user, language, theme and time. */
  function BackupDocument(usuario: Option<Json>, language: string, theme: string, now: string): Json {
    JObject(map[
      "metadata" := JObject(map[
        "version" := JString("1.0.0"), "timestamp" := JString(now), "type" := JString("manual"),
        "description" := JString("Backup completo do sistema Wayne Industries")]),
      "users" := JArray(BackupUsers()),
      "resources" := JArray(BackupResources()),
      "settings" := JObject(map[
        "language" := JString(language), "theme" := JString(theme),
        "notifications" := JObject(map[
          "email" := JBool(true), "desktop" := JBool(true), "security" := JBool(true), "resources" := JBool(false)]),
        "security" := JObject(map[
          "twoFactor" := JBool(true), "sessionTimeout" := JNumber(30.0), "passwordPolicy" := JString("strong")])]),
      "activities" := JArray([BackupActivity(usuario, now)])])
  }

  /** `generateBackupData()` over the store's entries and the current time `now` (an ISO 8601
    * text). The activity's user is the stored session user's `nome`, or 'Sistema' when no
    * user is stored. Parsing the stored user throws when it is not JSON or is `null`; the
    * whole call then throws (here `None`). */
  function GenerateBackupData(items: map<string, string>, parse: string -> Option<Json>, now: string): Option<Json> {
    var language := ItemOr(items, LanguageKey, "pt-BR");
    var theme := ItemOr(items, ThemeKey, "dark");
    if UserKey in items && items[UserKey] != "" then
      match parse(items[UserKey])
      case None => None
      case Some(saved) => if saved == JNull then None else Some(BackupDocument(Get(saved, "nome"), language, theme, now))
    else Some(BackupDocument(Some(JString("Sistema")), language, theme, now))
  }

  /** A generated backup always passes validation. */
  lemma GeneratedBackupIsValid(items: map<string, string>, parse: string -> Option<Json>, now: string)
    requires now != ""
    ensures GenerateBackupData(items, parse, now).Some? ==>
      CheckBackup(GenerateBackupData(items, parse, now).value) == Success(GenerateBackupData(items, parse, now).value)
  {
    if GenerateBackupData(items, parse, now).Some? {
      var d := GenerateBackupData(items, parse, now).value;
      var usuario :| d == BackupDocument(usuario, ItemOr(items, LanguageKey, "pt-BR"), ItemOr(items, ThemeKey, "dark"), now);
      DocumentIsValid(usuario, ItemOr(items, LanguageKey, "pt-BR"), ItemOr(items, ThemeKey, "dark"), now);
    }
  }

  lemma DocumentIsValid(usuario: Option<Json>, language: string, theme: string, now: string)
    requires now != ""
    ensures CheckBackup(BackupDocument(usuario, language, theme, now)) == Success(BackupDocument(usuario, language, theme, now))
  {
    var d := BackupDocument(usuario, language, theme, now);
    CheckAcceptsExactlyBackups(d);
    assert IsBackupShape(d);
  }

  /** The saved language and theme go into the backup; a missing or empty one gives 'pt-BR' or
    * 'dark'. A backup is produced unless a stored session user cannot be read. */
  lemma GeneratedSettings(items: map<string, string>, parse: string -> Option<Json>, now: string)
    ensures GenerateBackupData(items, parse, now).None? <==>
      UserKey in items && items[UserKey] != "" && (parse(items[UserKey]).None? || parse(items[UserKey]) == Some(JNull))
    ensures GenerateBackupData(items, parse, now).Some? ==>
      var settings := GenerateBackupData(items, parse, now).value.fields["settings"];
      && Get(settings, "language") == Some(JString(if LanguageKey in items && items[LanguageKey] != "" then items[LanguageKey] else "pt-BR"))
      && Get(settings, "theme") == Some(JString(if ThemeKey in items && items[ThemeKey] != "" then items[ThemeKey] else "dark"))
  {
  }

  // The name of the downloaded file.

  function FileNameChar(c: char): char {
    if c == ':' || c == '.' then '-' else c
  }

  /** `timestamp.replace(/[:.]/g, '-').slice(0, 19)`. */
  function BackupFileStamp(iso: string): string {
    Take(seq(|iso|, i requires 0 <= i < |iso| => FileNameChar(iso[i])), 19)
  }

  /** `wayne_backup_${stamp}.json`. */
  function BackupFileName(iso: string): string {
    "wayne_backup_" + BackupFileStamp(iso) + ".json"
  }

  /** The stamp is the first 19 characters of the timestamp with every ':' and '.' turned into
    * '-', so it holds neither; the name ends in ".json". */
  lemma FileNameShape(iso: string)
    ensures |BackupFileStamp(iso)| == if |iso| < 19 then |iso| else 19
    ensures forall i :: 0 <= i < |BackupFileStamp(iso)| ==>
      BackupFileStamp(iso)[i] == (if iso[i] == ':' || iso[i] == '.' then '-' else iso[i])
    ensures ':' !in BackupFileStamp(iso) && '.' !in BackupFileStamp(iso)
    ensures EndsWith(BackupFileName(iso), ".json")
  {
    var name := BackupFileName(iso);
    assert name[|name| - 5..] == ".json";
  }

  /** "2024-01-15T10:30:00.000Z" gives the stamp "2024-01-15T10-30-00". */
  lemma FileStampExample()
    ensures BackupFileStamp("2024-01-15T10:30:00.000Z") == "2024-01-15T10-30-00"
  {
    var iso := "2024-01-15T10:30:00.000Z";
    var expected := "2024-01-15T10-30-00";
    FileNameShape(iso);
    assert forall i | 0 <= i < 19 :: BackupFileStamp(iso)[i] == expected[i];
  }

  // Restoring into the store.

  /** `applyBackupData` reads `settings.language` and `metadata.timestamp`, which throws unless
    * `settings` and `metadata` are present and not `null`. */
  predicate CanApply(data: Json) {
    && Get(data, "settings").Some? && Get(data, "settings").value != JNull
    && Get(data, "metadata").Some? && Get(data, "metadata").value != JNull
  }

  /** A value that passed validation can be applied. */
  lemma ValidIsApplicable(d: Json)
    requires CheckBackup(d).Success?
    ensures CanApply(d)
  {
  }

  /** The text `setItem` stores for a member that may be `undefined`. */
  function MemberText(o: Option<Json>, numberText: real -> string): string {
    if o.Some? then StoredText(o.value, numberText) else "undefined"
  }

  /** The store after `applyBackupData(data)`. */
  function ApplyBackupItems(items: map<string, string>, data: Json, stringify: Json -> string, numberText: real -> string): map<string, string>
    requires CanApply(data)
  {
    var settings := Get(data, "settings").value;
    var language := Get(settings, "language");
    var theme := Get(settings, "theme");
    var withLanguage := if Truthy(language) then items[LanguageKey := StoredText(language.value, numberText)] else items;
    var withTheme := if Truthy(theme) then withLanguage[ThemeKey := StoredText(theme.value, numberText)] else withLanguage;
    withTheme[BackupDataKey := stringify(data)][BackupRestoredKey := "true"]
      [BackupTimestampKey := MemberText(Get(Get(data, "metadata").value, "timestamp"), numberText)]
  }

  method ApplyBackupData(store: Store, data: Json, stringify: Json -> string, numberText: real -> string)
    requires CanApply(data)
    modifies store
    ensures store.items == ApplyBackupItems(old(store.items), data, stringify, numberText)
  {
    var settings := Get(data, "settings").value;
    var language := Get(settings, "language");
    if Truthy(language) {
      store.SetItem(LanguageKey, StoredText(language.value, numberText));
    }
    var theme := Get(settings, "theme");
    if Truthy(theme) {
      store.SetItem(ThemeKey, StoredText(theme.value, numberText));
    }
    store.SetItem(BackupDataKey, stringify(data));
    store.SetItem(BackupRestoredKey, "true");
    store.SetItem(BackupTimestampKey, MemberText(Get(Get(data, "metadata").value, "timestamp"), numberText));
  }

  /** Applying a backup writes the language and theme only when the backup's are truthy,
    * always writes the data, the restored flag and the timestamp, and changes no other key. */
  lemma ApplyBackupEffects(items: map<string, string>, data: Json, stringify: Json -> string, numberText: real -> string)
    requires CanApply(data)
    ensures var after := ApplyBackupItems(items, data, stringify, numberText);
      var settings := Get(data, "settings").value;
      && (Truthy(Get(settings, "language")) ==>
            LanguageKey in after && after[LanguageKey] == StoredText(Get(settings, "language").value, numberText))
      && (!Truthy(Get(settings, "language")) ==>
            (LanguageKey in after <==> LanguageKey in items) && (LanguageKey in items ==> after[LanguageKey] == items[LanguageKey]))
      && (Truthy(Get(settings, "theme")) ==>
            ThemeKey in after && after[ThemeKey] == StoredText(Get(settings, "theme").value, numberText))
      && (!Truthy(Get(settings, "theme")) ==>
            (ThemeKey in after <==> ThemeKey in items) && (ThemeKey in items ==> after[ThemeKey] == items[ThemeKey]))
      && after[BackupDataKey] == stringify(data)
      && after[BackupRestoredKey] == "true"
      && after[BackupTimestampKey] == MemberText(Get(Get(data, "metadata").value, "timestamp"), numberText)
      && forall k :: k !in {LanguageKey, ThemeKey, BackupDataKey, BackupRestoredKey, BackupTimestampKey} ==>
            (k in after <==> k in items) && (k in items ==> after[k] == items[k])
  {
    KeysAreDistinct();
  }

  /** What `getStoredBackupData` finds: nothing (`null`), a parsed value, or text that does not
    * parse (the call throws). */
  datatype StoredBackup = NoBackup | StoredValue(value: Json) | Unreadable

  function GetStoredBackupData(items: map<string, string>, parse: string -> Option<Json>): StoredBackup {
    if BackupDataKey in items && items[BackupDataKey] != "" then
      match parse(items[BackupDataKey])
      case Some(v) => StoredValue(v)
      case None => Unreadable
    else NoBackup
  }

  /** With no stored data the result is `null`. */
  lemma NothingStoredGivesNull(items: map<string, string>, parse: string -> Option<Json>)
    requires BackupDataKey !in items
    ensures GetStoredBackupData(items, parse) == NoBackup
  {
  }

  /** After a backup is applied, reading it back gives the backup, when the JSON text of the
    * backup parses back to it (as it does for `JSON.stringify`, which never gives ""). */
  lemma StoredBackupReadsBack(items: map<string, string>, data: Json, stringify: Json -> string,
                              numberText: real -> string, parse: string -> Option<Json>)
    requires CanApply(data) && stringify(data) != "" && parse(stringify(data)) == Some(data)
    ensures GetStoredBackupData(ApplyBackupItems(items, data, stringify, numberText), parse) == StoredValue(data)
  {
    ApplyBackupEffects(items, data, stringify, numberText);
  }

  /** The store after `clearBackupData()`. */
  function ClearBackupItems(items: map<string, string>): map<string, string> {
    items - {BackupDataKey, BackupRestoredKey, BackupTimestampKey}
  }

  method ClearBackupData(store: Store)
    modifies store
    ensures store.items == ClearBackupItems(old(store.items))
  {
    store.RemoveItem(BackupDataKey);
    store.RemoveItem(BackupRestoredKey);
    store.RemoveItem(BackupTimestampKey);
  }

  /** Clearing removes exactly the three backup keys, keeps the language and the theme, and
    * leaves nothing to read back. */
  lemma ClearBackupEffects(items: map<string, string>, parse: string -> Option<Json>)
    ensures var after := ClearBackupItems(items);
      && BackupDataKey !in after && BackupRestoredKey !in after && BackupTimestampKey !in after
      && (forall k :: k !in {BackupDataKey, BackupRestoredKey, BackupTimestampKey} ==>
            (k in after <==> k in items) && (k in items ==> after[k] == items[k]))
      && (LanguageKey in items ==> LanguageKey in after && after[LanguageKey] == items[LanguageKey])
      && (ThemeKey in items ==> ThemeKey in after && after[ThemeKey] == items[ThemeKey])
      && GetStoredBackupData(after, parse) == NoBackup
  {
    KeysAreDistinct();
  }
}
