/**
 * The restore dialog: accepting an uploaded backup file, the listed backups, the simulated
 * restore with its fixed progress steps, and the guards of the two restore buttons. The
 * confirmation dialog is taken as confirmed; the delays between steps and the final page
 * reload are left out, so a restore runs to its end in one call.
 */
module BackupModal {
  import opened Wrappers
  import opened Text
  import opened Types
  import opened JsonValue
  import opened Storage
  import opened BackupUtils
  import Auth

  /** A file as the browser hands it over: its name, its MIME type and its text, `None` when
    * reading it fails. */
  datatype UploadedFile = UploadedFile(name: string, mime: string, content: Option<string>)

  /** An entry of the list of stored backups. */
  datatype BackupListing = BackupListing(id: string, name: string, date: string, size: string, kind: string, description: string)

  const BackupFiles: seq<BackupListing> := [
    BackupListing("1", "wayne_backup_2024-01-15T02-30-00.json", "2024-01-15T02:30:00Z", "2.4 MB", "Backup Automático",
      "Backup completo do sistema incluindo usuários, recursos e configurações"),
    BackupListing("2", "wayne_backup_2024-01-14T02-30-00.json", "2024-01-14T02:30:00Z", "2.3 MB", "Backup Automático",
      "Backup diário automático"),
    BackupListing("3", "wayne_backup_manual_2024-01-13T16-45-00.json", "2024-01-13T16:45:00Z", "2.2 MB", "Backup Manual",
      "Backup manual antes da atualização do sistema")
  ]

  /** The progress values of a restore, one per step. */
  const Steps: seq<nat> := [15, 25, 45, 65, 80, 95, 100]

  /** The progress rises strictly at every step, stays within 1..100 and ends at 100. */
  lemma StepsRiseToHundred()
    ensures |Steps| == 7 && Steps[|Steps| - 1] == 100
    ensures forall i, j :: 0 <= i < j < |Steps| ==> Steps[i] < Steps[j]
    ensures forall i :: 0 <= i < |Steps| ==> 0 < Steps[i] <= 100
  {
  }

  /** A file is read only when its MIME type is JSON or its name ends in ".json". */
  predicate AcceptsFile(f: UploadedFile) {
    f.mime == "application/json" || EndsWith(f.name, ".json")
  }

  /** A file downloaded by the backup function is accepted, whatever type the browser gives it. */
  lemma DownloadedBackupIsAccepted(iso: string, mime: string, content: Option<string>)
    ensures AcceptsFile(UploadedFile(BackupFileName(iso), mime, content))
  {
    FileNameShape(iso);
  }

  /** `mockBackupFiles.find(b => b.id === id)`: the first listing with that id. */
  function FindListing(id: string, files: seq<BackupListing>): (r: Option<BackupListing>)
    ensures r.Some? ==> r.value in files && r.value.id == id
    ensures r.None? <==> forall b :: b in files ==> b.id != id
    ensures r.Some? ==> exists k :: 0 <= k < |files| && files[k] == r.value && forall j :: 0 <= j < k ==> files[j].id != id
  {
    if files == [] then None
    else if files[0].id == id then Some(files[0])
    else
      var r := FindListing(id, files[1..]);
      if r.Some? then
        var k :| 0 <= k < |files[1..]| && files[1..][k] == r.value && forall j :: 0 <= j < k ==> files[1..][j].id != id;
        assert files[k + 1] == r.value;
        r
      else r
  }

  /** The `||` defaults of `generateMockBackupData`: the listing's date, else `now`. */
  function ListingDate(b: Option<BackupListing>, now: string): string {
    if b.Some? && b.value.date != "" then b.value.date else now
  }

  /** The metadata type: 'manual' exactly when the listing's type mentions "Manual". */
  function ListingType(b: Option<BackupListing>): string {
    if b.Some? && Contains(b.value.kind, "Manual") then "manual" else "automatic"
  }

  function ListingDescription(b: Option<BackupListing>): string {
    if b.Some? && b.value.description != "" then b.value.description else "Backup do sistema"
  }

  /** `generateMockBackupData(id)`: the document restored from a listed backup, with `now` as
    * the current time. */
  function GenerateMockBackupData(id: string, now: string): Json {
    var b := FindListing(id, BackupFiles);
    var date := ListingDate(b, now);
    JObject(map[
      "metadata" := MockMetadata(b, date),
      "users" := JArray(MockUsers(date)),
      "resources" := JArray(MockResources()),
      "settings" := MockSettings(),
      "activities" := JArray(MockActivities(now))])
  }

  function MockMetadata(b: Option<BackupListing>, date: string): Json {
    JObject(map[
      "version" := JString("1.0.0"), "timestamp" := JString(date),
      "type" := JString(ListingType(b)), "description" := JString(ListingDescription(b))])
  }

  function MockUsers(date: string): seq<Json> {
    [Auth.UserToJson(User("1", "Bruce Wayne (Restaurado)", "bruce@wayneind.com", "CEO", Admin, true, date, None)),
     Auth.UserToJson(User("2", "Lucius Fox (Restaurado)", "lucius@wayneind.com", "CTO", Gerente, true, date, None))]
  }

  function MockResources(): seq<Json> {
    [ResourceToJson(Recurso("1", "Batmóvel (Dados Restaurados)", Veiculo, Disponivel, "Batcaverna - Garagem Principal",
      "Alfred Pennyworth", "2020-06-15T00:00:00Z", 50000000.0, "Veículo blindado - Dados restaurados do backup"))]
  }

  function MockSettings(): Json {
    JObject(map[
      "language" := JString("pt-BR"), "theme" := JString("dark"),
      "notifications" := JObject(map[
        "email" := JBool(true), "desktop" := JBool(true), "security" := JBool(true), "resources" := JBool(false)]),
      "security" := JObject(map[
        "twoFactor" := JBool(true), "sessionTimeout" := JNumber(30.0), "passwordPolicy" := JString("strong")])])
  }

  function MockActivities(now: string): seq<Json> {
    [JObject(map[
      "id" := JString("1"), "tipo" := JString("backup"), "descricao" := JString("Dados restaurados do backup"),
      "usuario" := JString("Sistema"), "timestamp" := JString(now), "status" := JString("sucesso")])]
  }

  /** The metadata of a generated document: version '1.0.0'; type 'manual' exactly when the
    * listing's type mentions "Manual"; for an unknown id the type is 'automatic', the
    * description 'Backup do sistema' and the timestamp `now`. */
  lemma MockBackupMetadata(id: string, now: string)
    ensures var m := GenerateMockBackupData(id, now).fields["metadata"];
      var b := FindListing(id, BackupFiles);
      && Get(m, "version") == Some(JString("1.0.0"))
      && (Get(m, "type") == Some(JString("manual")) <==> b.Some? && Contains(b.value.kind, "Manual"))
      && (b.None? ==> Get(m, "type") == Some(JString("automatic")) &&
                      Get(m, "description") == Some(JString("Backup do sistema")) &&
                      Get(m, "timestamp") == Some(JString(now)))
  {
  }

  /** A generated document passes validation, so it can be applied. */
  lemma MockBackupIsValid(id: string, now: string)
    requires now != ""
    ensures CheckBackup(GenerateMockBackupData(id, now)).Success?
  {
    var d := GenerateMockBackupData(id, now);
    var b := FindListing(id, BackupFiles);
    assert ListingDate(b, now) != "";
    CheckAcceptsExactlyBackups(d);
    assert IsBackupShape(d);
  }

  lemma MockBackupCanApply(id: string, now: string)
    requires now != ""
    ensures CanApply(GenerateMockBackupData(id, now))
  {
    MockBackupIsValid(id, now);
    ValidIsApplicable(GenerateMockBackupData(id, now));
  }

  /** What the dialog shows and does, step by step: the progress it displays, the moment the
    * backup is applied and the moment the progress is reset. */
  datatype Event = Progress(value: nat) | Applied(data: Json)

  function ProgressEvents(steps: seq<nat>): seq<Event> {
    if steps == [] then [] else ProgressEvents(steps[..|steps| - 1]) + [Progress(steps[|steps| - 1])]
  }

  class RestoreDialog {
    var isOpen: bool
    var isRestoring: bool
    var restoreProgress: nat
    var uploadedFile: Option<UploadedFile>
    /** The titles of the notifications the dialog has sent. */
    var notices: seq<string>
    /** The documents handed to `onRestore`, in order. */
    var restored: seq<Json>
    ghost var events: seq<Event>
    const store: Store
    const parse: string -> Option<Json>
    const stringify: Json -> string
    const numberText: real -> string

    constructor (store: Store, parse: string -> Option<Json>, stringify: Json -> string, numberText: real -> string)
      ensures this.store == store && this.parse == parse && this.stringify == stringify && this.numberText == numberText
      ensures isOpen && !isRestoring && restoreProgress == 0 && uploadedFile.None?
      ensures notices == [] && restored == [] && events == []
    {
      this.store := store;
      this.parse := parse;
      this.stringify := stringify;
      this.numberText := numberText;
      isOpen := true;
      isRestoring := false;
      restoreProgress := 0;
      uploadedFile := None;
      notices := [];
      restored := [];
      events := [];
    }

    /** The close button is disabled while a restore runs. */
    predicate CloseDisabled()
      reads this
    {
      isRestoring
    }

    /** The close button and the backdrop: refused while a restore runs. In this model the
      * restore's step delays take no time, so `isRestoring` is already false again whenever
      * another handler can run, and the refused case is never reached. */
    method Close()
      modifies this
      ensures isOpen == (old(isOpen) && old(isRestoring))
      ensures isRestoring == old(isRestoring) && uploadedFile == old(uploadedFile)
      ensures notices == old(notices) && restored == old(restored) && events == old(events)
    {
      if !CloseDisabled() {
        isOpen := false;
      }
    }

    /** `handleFileUpload(file)`: the upload is kept only when the file is accepted, can be read
      * and validates; every other outcome keeps the previous upload and reports why. */
    method HandleFileUpload(file: UploadedFile)
      modifies this
      ensures uploadedFile ==
        if AcceptsFile(file) && file.content.Some? && ValidateBackupFile(file.content.value, parse).Success?
        then Some(file) else old(uploadedFile)
      ensures notices == old(notices) + [
        if !AcceptsFile(file) then "Formato Inválido"
        else if file.content.None? then "Erro no Arquivo"
        else if ValidateBackupFile(file.content.value, parse).Success? then "Arquivo Validado"
        else "Arquivo Inválido"]
      ensures isOpen == old(isOpen) && isRestoring == old(isRestoring) && restoreProgress == old(restoreProgress)
      ensures restored == old(restored) && events == old(events)
    {
      if AcceptsFile(file) {
        if file.content.None? {
          notices := notices + ["Erro no Arquivo"];
        } else {
          var validation := ValidateBackupFile(file.content.value, parse);
          if validation.Success? {
            uploadedFile := Some(file);
            notices := notices + ["Arquivo Validado"];
          } else {
            notices := notices + ["Arquivo Inválido"];
          }
        }
      } else {
        notices := notices + ["Formato Inválido"];
      }
    }

    /** `simulateRestore(data)`: the progress goes 0, then through every step, the backup is
      * applied and handed on once, after the last step; then the progress is back at 0, the
      * restoring flag is down and the dialog closed. */
    method SimulateRestore(data: Json)
      requires CanApply(data)
      modifies this, store
      ensures store.items == ApplyBackupItems(old(store.items), data, stringify, numberText)
      ensures events == old(events) + [Progress(0)] + ProgressEvents(Steps) + [Applied(data), Progress(0)]
      ensures restored == old(restored) + [data]
      ensures !isRestoring && restoreProgress == 0 && !isOpen
      ensures uploadedFile == old(uploadedFile)
      ensures |notices| == |old(notices)| + |Steps| + 1
    {
      isRestoring := true;
      restoreProgress := 0;
      events := events + [Progress(0)];
      ghost var before := events;
      var i := 0;
      while i < |Steps|
        invariant 0 <= i <= |Steps|
        invariant events == before + ProgressEvents(Steps[..i])
        invariant restoreProgress == if i == 0 then 0 else Steps[i - 1]
        invariant isRestoring && uploadedFile == old(uploadedFile) && restored == old(restored)
        invariant |notices| == |old(notices)| + i
        invariant store.items == old(store.items)
      {
        assert Steps[..i + 1][..i] == Steps[..i];
        restoreProgress := Steps[i];
        events := events + [Progress(Steps[i])];
        notices := notices + ["Progresso da Restauração"];
        i := i + 1;
      }
      assert Steps[..i] == Steps;
      ApplyBackupData(store, data, stringify, numberText);
      restored := restored + [data];
      events := events + [Applied(data)];
      notices := notices + ["Backup Restaurado com Sucesso"];
      isRestoring := false;
      restoreProgress := 0;
      events := events + [Progress(0)];
      isOpen := false;
    }

    /** `handleRestoreFromList(id)`: nothing for an unknown id; otherwise the generated document
      * for that listing is restored. */
    method HandleRestoreFromList(id: string, now: string)
      requires now != ""
      modifies this, store
      ensures if FindListing(id, BackupFiles).None? then
          store.items == old(store.items) && restored == old(restored) && events == old(events) &&
          notices == old(notices) && isOpen == old(isOpen) && isRestoring == old(isRestoring)
        else
          var data := GenerateMockBackupData(id, now);
          restored == old(restored) + [data] && store.items == ApplyBackupItems(old(store.items), data, stringify, numberText)
    {
      var backup := FindListing(id, BackupFiles);
      if backup.None? {
        return;
      }
      var data := GenerateMockBackupData(id, now);
      MockBackupCanApply(id, now);
      SimulateRestore(data);
    }

    /** `handleRestoreFromFile()`: nothing without an upload; otherwise the file is read and
      * validated again, and restored only when it passes. */
    method HandleRestoreFromFile()
      modifies this, store
      ensures old(uploadedFile).None? ==>
        store.items == old(store.items) && restored == old(restored) && events == old(events) && notices == old(notices)
      ensures old(uploadedFile).Some? && old(uploadedFile).value.content.Some? &&
              ValidateBackupFile(old(uploadedFile).value.content.value, parse).Success? ==>
        var data := ValidateBackupFile(old(uploadedFile).value.content.value, parse).value;
        restored == old(restored) + [data] && store.items == ApplyBackupItems(old(store.items), data, stringify, numberText)
      ensures old(uploadedFile).Some? && !(old(uploadedFile).value.content.Some? &&
              ValidateBackupFile(old(uploadedFile).value.content.value, parse).Success?) ==>
        store.items == old(store.items) && restored == old(restored) && events == old(events) &&
        notices == old(notices) + ["Erro na Restauração"]
    {
      if uploadedFile.None? {
        return;
      }
      var file := uploadedFile.value;
      if file.content.None? {
        notices := notices + ["Erro na Restauração"];
        return;
      }
      var validation := ValidateBackupFile(file.content.value, parse);
      if validation.Success? {
        CheckAcceptsExactlyBackups(parse(file.content.value).value);
        ValidIsApplicable(validation.value);
        SimulateRestore(validation.value);
      } else {
        notices := notices + ["Erro na Restauração"];
      }
    }
  }
}
