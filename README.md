# Wayne Industries dashboard — a Dafny model of its logic

This project models the logic behind the Wayne Industries security dashboard, a React single-page
application. It covers:

- **Global search.** A case-insensitive match over four in-memory collections: users, resources,
  security areas and activities.
- **Backups.** Validating, generating, applying, reading back and clearing a backup, plus the restore
  dialog with its simulated progress steps.
- **Access.** The session (login, logout, the three access levels) and the side menu that access filters.
- **Notifications.** The notification list with its unread count.
- **Entity pages.** The users, resources and security-area pages: their filtered lists and the handlers
  that create, edit, delete and toggle entries.
- **Forms.** The three record forms: their prefill, their step-by-step validation (including the
  e-mail pattern) and the access allowlist with its user picker.
- **Preferences.** Language with translation lookup, theme with `auto` resolution, and timezone with
  its load guard.
- **Settings page.** A draft that is applied only on save.
- **Header.** The language toggle, the avatar initials and the search box.
- **Search dropdown.** The view it shows, the page each result type leads to, and the result-count
  footer.

Each source file is one Dafny module:

- **Pure parts are functions with lemmas.** This covers the matchers, filters, validators, lookups and
  list updates.
- **Stateful parts are classes.** This covers the contexts, pages and dialogs. Their methods state
  their whole new state in terms of those functions.

The shared helper modules are:

- `Wrappers`: Option and Result.
- `Text`: the JavaScript string operations.
- `Seqs`: `filter`, `map` and `find` on arrays.
- `Storage`: `localStorage` as a `class Store` holding a `map<string, string>`.
- `JsonValue`: a parsed JSON value.
- `Forms`: the create/edit mode and the error record.
- `Types`: the entity records and their enumerations.

The model takes as parameters what it cannot define: the current time, fresh ids, `JSON.parse` and
`JSON.stringify`, the number-to-text conversion, and the system colour-scheme preference.

## Model

| member | source | states |
|---|---|---|
| Types.CodesAreDistinct | src/types/index.ts:1-49 | each closed enumeration's stored codes are pairwise different, so an equality test against a code picks out exactly one value |
| Storage.Store.constructor | src/contexts/AuthContext.tsx:49 | a store starts with the given entries |
| Storage.Store.GetItem | src/contexts/AuthContext.tsx:49 | `getItem` gives a value exactly when the key is present, and then its stored text |
| Storage.Store.SetItem | src/contexts/AuthContext.tsx:63 | `setItem` sets one key and changes no other |
| Storage.Store.RemoveItem | src/contexts/AuthContext.tsx:73 | `removeItem` drops one key and changes no other |
| Storage.ItemOr | src/utils/backupUtils.ts:97-98 | `getItem(key) \|\| fallback`: the stored text when it is present and non-empty, else the fallback |
| Storage.KeysAreDistinct | src/utils/backupUtils.ts:16-18 | the seven store keys are different texts |
| JsonValue.Get | src/utils/backupUtils.ts:139 | a member read is defined exactly for an object that has the member |
| JsonValue.Member | src/utils/backupUtils.ts:147 | a member of a member is defined only under an object |
| JsonValue.ArrayIsTruthy | src/utils/backupUtils.ts:139-160 | every array is truthy; a truthy value is neither `undefined` nor `null` |
| JsonValue.StringStoredAsIs | src/utils/backupUtils.ts:177 | writing a string member to the store writes that string itself |
| Text.TrimStart | src/contexts/SearchContext.tsx:171 | `trim` drops exactly the leading white space: the result is a suffix, starts with non-space, and only white space was dropped |
| Text.TrimEnd | src/contexts/SearchContext.tsx:171 | `trim` drops exactly the trailing white space |
| Text.BlankIffTrimmedEmpty | src/contexts/SearchContext.tsx:171 | `!s.trim()` holds exactly when the text is nothing but white space |
| Text.NotBlank | src/components/Users/UserModal.tsx:72 | a text with one non-space character passes a required-field test |
| Text.LowerWithoutCapitals | src/contexts/SearchContext.tsx:178 | the model's `toLowerCase`, which folds ASCII and Latin-1 capitals only, leaves a text without such capitals unchanged |
| Text.EmptyContained | src/pages/Users.tsx:86-89 | `includes("")` always holds |
| Text.Take | src/utils/backupUtils.ts:116 | `slice(0, n)` is the first n characters, or all of a shorter text |
| Text.Split | src/components/Layout/Header.tsx:88 | `split` on one character never gives an empty list |
| Text.SplitJoin | src/components/Layout/Header.tsx:88 | joining the parts of a split gives the text back, and no part holds the separator |
| Text.SplitWord | src/components/Layout/Header.tsx:88 | a text without the separator splits into itself alone |
| Text.SplitAfterWord | src/components/Layout/Header.tsx:88 | a word, the separator and a rest split into the word followed by the rest's parts |
| Text.BeforeFirst | src/components/Resources/ResourceModal.tsx:50 | `split('T')[0]` is the prefix before the first 'T', or the whole text when there is none |
| Text.FirstPartIsPrefix | src/components/Resources/ResourceModal.tsx:50 | the first part of a split is a prefix of the text, and is followed by the separator when shorter |
| Text.DecimalRoundTrip | src/contexts/SearchContext.tsx:228 | the decimal text of a count is a non-empty run of digits that reads back as the count |
| Seqs.Find | src/pages/Users.tsx:120 | `find` gives nothing exactly when no entry passes, and otherwise the first entry that passes |
| Seqs.FilterSpec | src/pages/Users.tsx:85 | `filter` keeps exactly the passing entries, in order, and is never longer |
| Seqs.MapSpec | src/contexts/NotificationContext.tsx:64 | `map` keeps the length and converts entry by entry |
| Seqs.ReplaceWhereSpec | src/pages/Users.tsx:123-125 | a conditional `map` rewrites exactly the entries that satisfy the test and keeps the rest, the order and the length |
| Forms.ClearError | src/components/Users/UserModal.tsx:103-105 | after an edit, the edited field's error is no longer displayed; the other fields' errors and the set of keys are kept |
| SearchContext.HitsSpec | src/contexts/SearchContext.tsx:181-196 | one pass holds the result of every matching record, nothing else, and at most one result per record |
| SearchContext.HitsIsFilterThenMap | src/contexts/SearchContext.tsx:181-196 | one pass equals the collection filtered by the match and then mapped to results, in collection order |
| SearchContext.HitsExact | src/contexts/SearchContext.tsx:181-196 | when distinct records give distinct results, a record's result is in the pass exactly when the record matches |
| SearchContext.HitsAll | src/contexts/SearchContext.tsx:181-196 | a property of every matching record's result holds of every result of the pass |
| SearchContext.BlankTermFindsNothing | src/contexts/SearchContext.tsx:171-174 | a blank term yields no results |
| SearchContext.SearchFindsExactlyTheUsers | src/contexts/SearchContext.tsx:181-196 | a user is found exactly when the term is not blank and the lower-cased term occurs in the lower-cased name, e-mail or role |
| SearchContext.SearchFindsExactlyTheResources | src/contexts/SearchContext.tsx:199-215 | a resource is found exactly when the term occurs in its name, description, location or person in charge |
| SearchContext.SearchFindsExactlyTheAreas | src/contexts/SearchContext.tsx:218-232 | an area is found exactly when the term occurs in its name or raw level code |
| SearchContext.SearchFindsExactlyTheActivities | src/contexts/SearchContext.tsx:235-250 | an activity is found exactly when the term occurs in its description, user or type |
| SearchContext.SearchResultsAreExplained | src/contexts/SearchContext.tsx:187-248 | every result comes from a matching record of its own collection, and its id is the type prefix, '-' and the record's id |
| SearchContext.OtherGroupsHaveTypes | src/contexts/SearchContext.tsx:187-248 | each pass tags its results with its own collection's type |
| SearchContext.HitsHaveType | src/contexts/SearchContext.tsx:187-248 | a pass whose result builder gives one type gives only results of that type |
| SearchContext.SearchIsGrouped | src/contexts/SearchContext.tsx:181-250 | results come users first, then resources, then areas, then activities |
| SearchContext.SearchIsBounded | src/contexts/SearchContext.tsx:181-250 | there are at most as many results as records |
| SearchContext.SearchFindsBruce | src/contexts/SearchContext.tsx:178-185 | "BRUCE" and "bruce" both find Bruce Wayne's record, because case does not matter |
| SearchContext.SearchFindsAreaByLevelCode | src/contexts/SearchContext.tsx:218-230 | "restrito" finds every restricted area; its result reads "Nível restrito" and counts the allowed users |
| SearchContext.LeadingSpaceIsSearchedFor | src/contexts/SearchContext.tsx:171-178 | only the blank test trims, so a term starting with a space finds only records that contain white space |
| SearchContext.WhitespaceSurvivesLowering | src/contexts/SearchContext.tsx:178-185 | lower-casing creates no white space |
| SearchContext.UserFound | src/contexts/SearchContext.tsx:181-196 | a matching user's result is in the list for a non-blank term |
| SearchContext.AreaFound | src/contexts/SearchContext.tsx:218-232 | a matching area's result is in the list for a non-blank term |
| SearchContext.CollectHits | src/contexts/SearchContext.tsx:181-196 | the `forEach` pass that pushes matching results builds exactly that pass's hits |
| SearchContext.CollectResults | src/contexts/SearchContext.tsx:177-250 | the four passes, in order, over the lower-cased term build exactly the full hit list |
| SearchContext.SearchProvider.constructor | src/contexts/SearchContext.tsx:166-168 | the provider starts with an empty term, no results and the flag down |
| SearchContext.SearchProvider.PerformSearch | src/contexts/SearchContext.tsx:170-257 | the results become the search of the term; a blank term leaves the flag alone, any other ends with the flag down; the term is kept |
| SearchContext.SearchProvider.SetSearchTerm | src/contexts/SearchContext.tsx:264-270 | typing sets the term, and the (debounced) search shows that term's results |
| SearchContext.SearchProvider.ClearSearch | src/contexts/SearchContext.tsx:259-262 | `clearSearch` empties the term and the results |
| BackupUtils.CheckAcceptsExactlyBackups | src/utils/backupUtils.ts:139-165 | validation accepts exactly the backup-shaped values and returns the parsed value unchanged |
| BackupUtils.UnparseableIsRejected | src/utils/backupUtils.ts:166-170 | text that does not parse gives the JSON error |
| BackupUtils.ChecksRunInOrder | src/utils/backupUtils.ts:139-160 | the metadata error only after the four members are truthy, the array error only after the metadata check passes; a `null` document gives the JSON error |
| BackupUtils.ActivitiesAreNotInspected | src/utils/backupUtils.ts:139-165 | replacing `activities` changes no verdict |
| BackupUtils.GeneratedBackupIsValid | src/utils/backupUtils.ts:14-112 | a generated backup passes validation |
| BackupUtils.DocumentIsValid | src/utils/backupUtils.ts:87-112 | the backup document for any user, language, theme and time is accepted as it is |
| BackupUtils.GeneratedSettings | src/utils/backupUtils.ts:81-98 | the saved language and theme go into the backup, 'pt-BR' and 'dark' when missing or empty; the one failure is a stored session that does not parse |
| BackupUtils.FileNameShape | src/utils/backupUtils.ts:116-117 | the file stamp is the first 19 characters with every ':' and '.' replaced by '-'; it holds neither, and the name ends in ".json" |
| BackupUtils.FileStampExample | src/utils/backupUtils.ts:116 | "2024-01-15T10:30:00.000Z" gives the stamp "2024-01-15T10-30-00" |
| BackupUtils.ValidIsApplicable | src/utils/backupUtils.ts:174-188 | a value that passed validation can be applied without a failing member read |
| BackupUtils.ApplyBackupData | src/utils/backupUtils.ts:174-188 | the store after applying is the one `ApplyBackupItems` describes |
| BackupUtils.ApplyBackupEffects | src/utils/backupUtils.ts:174-188 | language and theme are written only when truthy; the data, the restored flag "true" and the timestamp are always written; no other key changes |
| BackupUtils.NothingStoredGivesNull | src/utils/backupUtils.ts:190-193 | with no stored data the reader gives `null` |
| BackupUtils.StoredBackupReadsBack | src/utils/backupUtils.ts:185-193 | after applying, reading back gives the applied document when parsing inverts serialising |
| BackupUtils.ClearBackupData | src/utils/backupUtils.ts:195-199 | the store after clearing is the one `ClearBackupItems` describes |
| BackupUtils.ClearBackupEffects | src/utils/backupUtils.ts:190-199 | clearing removes exactly the three backup keys, keeps language and theme, and then nothing is read back |
| BackupModal.StepsRiseToHundred | src/components/Settings/BackupModal.tsx:114-122 | the seven progress values rise strictly, stay within 1..100 and end at 100 |
| BackupModal.DownloadedBackupIsAccepted | src/components/Settings/BackupModal.tsx:48 | a file named by the download function is accepted whatever its MIME type |
| BackupModal.FindListing | src/components/Settings/BackupModal.tsx:156 | the first listing with the id, or none when no listing has it |
| BackupModal.MockBackupMetadata | src/components/Settings/BackupModal.tsx:157-163 | version '1.0.0'; type 'manual' exactly when the listing's type mentions "Manual"; an unknown id gives 'automatic', 'Backup do sistema' and the current time |
| BackupModal.MockBackupIsValid | src/components/Settings/BackupModal.tsx:155-223 | a generated restore document passes validation |
| BackupModal.MockBackupCanApply | src/components/Settings/BackupModal.tsx:155-223 | a generated restore document can be applied |
| BackupModal.RestoreDialog.constructor | src/components/Settings/BackupModal.tsx:41-45 | the dialog starts idle at progress 0 with no upload |
| BackupModal.RestoreDialog.Close | src/components/Settings/BackupModal.tsx:274-276 | closing is refused while a restore runs, a case the instantaneous restore never reaches between handlers |
| BackupModal.RestoreDialog.HandleFileUpload | src/components/Settings/BackupModal.tsx:47-81 | the upload is replaced only by an accepted, readable, valid file; exactly one notice says which case happened |
| BackupModal.RestoreDialog.SimulateRestore | src/components/Settings/BackupModal.tsx:110-153 | progress goes 0, then through each step; the backup is applied and handed on once, after the last step; then progress is 0, the flag is down and the dialog is closed |
| BackupModal.RestoreDialog.HandleRestoreFromList | src/components/Settings/BackupModal.tsx:225-233 | an unknown id does nothing; otherwise the listing's generated document is restored |
| BackupModal.RestoreDialog.HandleRestoreFromFile | src/components/Settings/BackupModal.tsx:235-260 | without an upload nothing happens; the file is validated again and restored only when it passes, otherwise an error is reported |
| Auth.NoUserNoPermission | src/contexts/AuthContext.tsx:77 | with nobody logged in nothing is permitted |
| Auth.PermissionFollowsRank | src/contexts/AuthContext.tsx:79-85 | a level is granted exactly when the user's rank is at least its rank |
| Auth.UnknownLevelNeverGranted | src/contexts/AuthContext.tsx:85 | a text that is not a level code is never granted |
| Auth.PermissionIsMonotone | src/contexts/AuthContext.tsx:79-85 | granting a level grants every lower one, and an administrator is granted all |
| Auth.FindAccount | src/contexts/AuthContext.tsx:58 | the account with that e-mail, or none exactly when no account has it |
| Auth.LoginAcceptsExactly | src/contexts/AuthContext.tsx:14-60 | login succeeds exactly for the three table addresses with "123456"; `ativo` plays no part |
| Auth.AuthProvider.constructor | src/contexts/AuthContext.tsx:45-46 | nobody is logged in at first |
| Auth.SessionOfAccount | src/contexts/AuthContext.tsx:76-86 | on an account's record, `hasPermission` on the session value is the rank check on the account |
| Auth.ValueWithoutLevelGrantsNothing | src/contexts/AuthContext.tsx:76-86 | a `null` session or an object without `nivel` grants nothing |
| Auth.Restore | src/contexts/AuthContext.tsx:48-54 | no session exactly when the key is missing or empty; a parse error exactly when the text does not parse; otherwise the parsed value, whatever it is |
| Auth.ReloadAfterLogin | src/contexts/AuthContext.tsx:48-64 | a session stored by a login is restored as the same record with the same rights, when parsing inverts serialising |
| Auth.StoredNullIsASession | src/contexts/AuthContext.tsx:48-86 | a stored "null" is restored as a logged-in session that grants nothing |
| Auth.AuthProvider.LoadSession | src/contexts/AuthContext.tsx:48-54 | any non-empty stored text that parses becomes the session and counts as logged in; text that does not parse throws and changes nothing; no stored text changes nothing |
| Auth.AuthProvider.Login | src/contexts/AuthContext.tsx:56-68 | success exactly for valid credentials; the account's record becomes the session, with the account's rights, and is stored; a failure changes nothing |
| Auth.AuthProvider.Logout | src/contexts/AuthContext.tsx:70-74 | nobody is logged in, nothing is permitted, and the session key is gone |
| Sidebar.VisibleIffPermitted | src/components/Layout/Sidebar.tsx:19-47 | an entry is shown exactly when its level is granted, in menu order |
| Sidebar.NoUserNoMenu | src/components/Layout/Sidebar.tsx:47 | with nobody logged in no entry is shown |
| Sidebar.MenuPerLevel | src/components/Layout/Sidebar.tsx:19-25 | an employee sees dashboard and resources, a manager also security, an administrator all five |
| Sidebar.HigherLevelSeesMore | src/components/Layout/Sidebar.tsx:19-47 | a higher level sees every entry a lower one sees |
| Sidebar.AtMostOneActive | src/components/Layout/Sidebar.tsx:50 | the entry ids are distinct, so at most one shown entry is active |
| Sidebar.DistinctIdsStayDistinct | src/components/Layout/Sidebar.tsx:46 | a filtered menu keeps its ids distinct |
| Notifications.UnreadCountCounts | src/contexts/NotificationContext.tsx:52 | the unread count is at most the length; it is 0 exactly when all are read, and the length exactly when none is |
| Notifications.MarkReadSpec | src/contexts/NotificationContext.tsx:54-60 | exactly the entries with that id become read; everything else, the order and the length stay |
| Notifications.MarkUnknownIsNoOp | src/contexts/NotificationContext.tsx:54-60 | marking an absent id changes nothing |
| Notifications.MarkReadIdempotent | src/contexts/NotificationContext.tsx:54-60 | marking twice is marking once, and marking never raises the unread count |
| Notifications.UnreadNotMoreThan | src/contexts/NotificationContext.tsx:52-60 | marking entries read never adds unread entries |
| Notifications.MarkAllReadSpec | src/contexts/NotificationContext.tsx:62-66 | after marking all, nothing is unread and only the `read` flags changed |
| Notifications.MarkAllReadIdempotent | src/contexts/NotificationContext.tsx:62-66 | marking all twice is marking all once |
| Notifications.AddSpec | src/contexts/NotificationContext.tsx:68-76 | one unread entry goes in front of the old list, so the unread count grows by one |
| Notifications.InitialList | src/contexts/NotificationContext.tsx:22-47 | the initial list has three entries, two unread |
| Notifications.NotificationCenter.constructor | src/contexts/NotificationContext.tsx:50 | the list starts as the initial list |
| Notifications.NotificationCenter.MarkAsRead | src/contexts/NotificationContext.tsx:54-60 | the list becomes `MarkRead` of the old list |
| Notifications.NotificationCenter.MarkAllAsRead | src/contexts/NotificationContext.tsx:62-66 | the list becomes `MarkAllRead` of the old list, with no unread entries |
| Notifications.NotificationCenter.AddNotification | src/contexts/NotificationContext.tsx:68-76 | the list becomes `Add` of the old list, and the unread count grows by one |
| UsersPage.FilteredUsersSpec | src/pages/Users.tsx:83-93 | a user is listed exactly when it matches the active term (global over local) and the level filter, in order |
| UsersPage.NothingFilteredShowsAll | src/pages/Users.tsx:85-93 | no term and 'todos' list every user |
| UsersPage.LevelFilterIsExact | src/pages/Users.tsx:91 | a level filter lists only users of that level |
| UsersPage.DeleteSpec | src/pages/Users.tsx:107-117 | delete removes exactly the users with that id and keeps the rest in order; an unknown id changes nothing |
| UsersPage.NewStatusFlipsFirst | src/pages/Users.tsx:120-121 | the new status is the first matching user's status flipped |
| UsersPage.ToggleSpec | src/pages/Users.tsx:119-125 | toggling changes only `ativo`, only on users with that id; an unknown id changes nothing |
| UsersPage.ToggleTwiceRestores | src/pages/Users.tsx:119-125 | when the users with that id agree on their status, toggling twice restores the list |
| UsersPage.CreateSpec | src/pages/Users.tsx:135-141 | create appends one user with the form's fields, the new id and the time |
| UsersPage.EditSpec | src/pages/Users.tsx:147-153 | edit keeps the length; edited entries keep id and last access and take the form's fields; others are unchanged |
| UsersPage.UsersView.constructor | src/pages/Users.tsx:75-80 | the page starts with the seed users, no term, 'todos', and the form closed in create mode |
| UsersPage.UsersView.HandleCreateNew | src/pages/Users.tsx:95-99 | the form opens in create mode with no edited user |
| UsersPage.UsersView.HandleEdit | src/pages/Users.tsx:101-105 | the form opens in edit mode on the user |
| UsersPage.UsersView.HandleDelete | src/pages/Users.tsx:107-117 | the list becomes `Deleted` of the old list; nothing else changes |
| UsersPage.UsersView.ToggleUserStatus | src/pages/Users.tsx:119-132 | the list becomes `Toggled` of the old list; nothing else changes |
| UsersPage.UsersView.HandleSaveUser | src/pages/Users.tsx:134-160 | create appends, edit replaces, and edit with no edited user does nothing |
| UsersPage.UsersView.HandleCloseModal | src/pages/Users.tsx:162-165 | the form closes and forgets the edited user |
| UsersPage.UsersView.SetLocalSearchTerm | src/pages/Users.tsx:197 | only the page's term changes |
| UsersPage.UsersView.SetSelectedFilter | src/pages/Users.tsx:206 | only the filter changes |
| ResourcesPage.FilteredRecursosSpec | src/pages/Resources.tsx:91-102 | a resource is listed exactly when it matches the active term and the category filter, in order |
| ResourcesPage.NothingFilteredShowsAll | src/pages/Resources.tsx:93-102 | no term and 'todos' list every resource |
| ResourcesPage.CategoryFilterIsExact | src/pages/Resources.tsx:100 | a category filter lists only resources of that category |
| ResourcesPage.GlobalTermWins | src/pages/Resources.tsx:91 | a non-empty global term makes the page's own term irrelevant |
| ResourcesPage.DeleteSpec | src/pages/Resources.tsx:116-126 | delete removes exactly the resources with that id and keeps the rest in order |
| ResourcesPage.CreateSpec | src/pages/Resources.tsx:129-134 | create appends one resource with the form's fields and the new id |
| ResourcesPage.EditSpec | src/pages/Resources.tsx:140-145 | edit keeps the length; edited entries keep their id and take the form's fields; others are unchanged |
| ResourcesPage.EditFromPrefillKeepsResource | src/pages/Resources.tsx:140-145 | saving an unchanged edit prefill through the dialog stores the resource with its date replaced by the timestamp of the date part; it comes back unchanged exactly when that timestamp is the stored one |
| ResourcesPage.ResourcesView.constructor | src/pages/Resources.tsx:83-88 | the page starts with the seed resources, no term, 'todos', and the form closed |
| ResourcesPage.ResourcesView.HandleCreateNew | src/pages/Resources.tsx:104-108 | the form opens in create mode |
| ResourcesPage.ResourcesView.HandleEdit | src/pages/Resources.tsx:110-114 | the form opens in edit mode on the resource |
| ResourcesPage.ResourcesView.HandleDelete | src/pages/Resources.tsx:116-126 | the list becomes `Deleted` of the old list |
| ResourcesPage.ResourcesView.HandleSaveResource | src/pages/Resources.tsx:128-152 | create appends, edit replaces, and edit with no edited resource does nothing |
| ResourcesPage.ResourcesView.HandleCloseModal | src/pages/Resources.tsx:154-157 | the form closes and forgets the edited resource |
| ResourcesPage.ResourcesView.SetLocalSearchTerm | src/pages/Resources.tsx:189 | only the page's term changes |
| ResourcesPage.ResourcesView.SetSelectedFilter | src/pages/Resources.tsx:198 | only the filter changes |
| SecurityPage.FilteredAreasSpec | src/pages/Security.tsx:74-83 | an area is listed exactly when it matches the active term and the level filter, in order |
| SecurityPage.NothingFilteredShowsAll | src/pages/Security.tsx:76-83 | no term and 'todos' list every area |
| SecurityPage.LevelFilterIsExact | src/pages/Security.tsx:81 | a level filter lists only areas of that level |
| SecurityPage.LevelCodeFindsItsAreas | src/pages/Security.tsx:77-79 | typing a raw level code lists every area of that level |
| SecurityPage.CreateSpec | src/pages/Security.tsx:104-109 | create appends one area with the form's fields and the new id |
| SecurityPage.EditSpec | src/pages/Security.tsx:115-120 | edit keeps the length; edited entries keep their id and take the form's fields; others are unchanged |
| SecurityPage.SavedAreaReopens | src/pages/Security.tsx:103-120 | an area saved from the form and opened for editing shows the form's data again, the date cut before the 'T' |
| SecurityPage.SecurityView.constructor | src/pages/Security.tsx:64-71 | the page starts with the seed areas, both dialogs closed and nothing selected |
| SecurityPage.SecurityView.HandleCreateNew | src/pages/Security.tsx:85-89 | the form opens in create mode |
| SecurityPage.SecurityView.HandleEdit | src/pages/Security.tsx:91-96 | the form opens in edit mode and the details view closes |
| SecurityPage.SecurityView.HandleViewDetails | src/pages/Security.tsx:98-101 | the details view opens on the area |
| SecurityPage.SecurityView.HandleSaveArea | src/pages/Security.tsx:103-127 | create appends, edit replaces, and edit with no edited area does nothing |
| SecurityPage.SecurityView.HandleCloseModal | src/pages/Security.tsx:129-132 | the form closes and forgets the edited area |
| SecurityPage.SecurityView.HandleCloseDetailsModal | src/pages/Security.tsx:134-137 | the details view closes and forgets the selected area |
| SecurityPage.SecurityView.SetLocalSearchTerm | src/pages/Security.tsx:169 | only the page's term changes |
| SecurityPage.SecurityView.SetSelectedFilter | src/pages/Security.tsx:178 | only the filter changes |
| EmailPattern.EmailPatternCharacterised | src/components/Users/UserModal.tsx:78 | the pattern accepts exactly the addresses with a single '@', no white space, a non-empty local part and a domain with an inner '.' |
| EmailPattern.SurroundingSpaceFails | src/components/Users/UserModal.tsx:78 | a leading or trailing space fails the pattern, because the address is not trimmed |
| UserModal.Prefill | src/components/Users/UserModal.tsx:48-67 | editing a user copies its fields; anything else gives the empty form |
| UserModal.FormErrorsSpec | src/components/Users/UserModal.tsx:69-88 | errors only for name, e-mail and role, each exactly when its check fails; a missing e-mail gets only the required message; valid exactly when there is no error |
| UserModal.EmptyFormInvalid | src/components/Users/UserModal.tsx:38-88 | the empty form has errors for name, e-mail (required) and role |
| UserModal.EditTouchesOnlyItsField | src/components/Users/UserModal.tsx:101-102 | editing one field leaves every other field's verdict as it was |
| UserModal.UserDialog.constructor | src/components/Users/UserModal.tsx:38-46 | the form starts empty with no errors |
| UserModal.UserDialog.Open | src/components/Users/UserModal.tsx:48-67 | opening prefills the form and clears the errors |
| UserModal.UserDialog.Validate | src/components/Users/UserModal.tsx:69-88 | the errors are rebuilt as `FormErrors` of the form, and the result says whether there are none |
| UserModal.UserDialog.HandleSubmit | src/components/Users/UserModal.tsx:90-99 | the form is handed on and closing is asked for exactly when it has no errors |
| UserModal.UserDialog.ChangeText | src/components/Users/UserModal.tsx:101-106 | one text field changes and only its error is cleared |
| UserModal.UserDialog.ChangeNivel | src/components/Users/UserModal.tsx:101-106 | the level changes and only its error is cleared |
| UserModal.UserDialog.ChangeAtivo | src/components/Users/UserModal.tsx:101-106 | the status changes and only its error is cleared |
| ResourceModal.PrefillEditSpec | src/components/Resources/ResourceModal.tsx:42-56 | an edit prefill copies every field and cuts the date before the first 'T' |
| ResourceModal.FormErrorsSpec | src/components/Resources/ResourceModal.tsx:69-93 | each field's error is recorded exactly when its check fails, with a message; valid exactly when there is no error |
| ResourceModal.FreshCreateFormInvalid | src/components/Resources/ResourceModal.tsx:57-93 | a fresh create form is rejected, its value 0 included |
| ResourceModal.ValueMustBePositive | src/components/Resources/ResourceModal.tsx:84 | a value of 0 or less is rejected whatever else the form holds |
| ResourceModal.EditTouchesOnlyItsField | src/components/Resources/ResourceModal.tsx:111-112 | editing one field leaves every other field's verdict as it was |
| ResourceModal.ResourceDialog.constructor | src/components/Resources/ResourceModal.tsx:29-40 | the form starts as the create default with no errors |
| ResourceModal.ResourceDialog.Open | src/components/Resources/ResourceModal.tsx:42-67 | opening prefills the form and clears the errors |
| ResourceModal.ResourceDialog.Validate | src/components/Resources/ResourceModal.tsx:69-93 | the errors are rebuilt as `FormErrors`, and the result says whether there are none |
| ResourceModal.ResourceDialog.HandleSubmit | src/components/Resources/ResourceModal.tsx:95-109 | a form without errors is handed on with its date as a full timestamp, and closing is asked for |
| ResourceModal.ResourceDialog.ChangeText | src/components/Resources/ResourceModal.tsx:111-116 | one text field changes and only its error is cleared |
| ResourceModal.ResourceDialog.ChangeValor | src/components/Resources/ResourceModal.tsx:111-116 | the value changes and only its error is cleared |
| ResourceModal.ResourceDialog.ChangeCategoria | src/components/Resources/ResourceModal.tsx:111-116 | the category changes and only its error is cleared |
| ResourceModal.ResourceDialog.ChangeStatus | src/components/Resources/ResourceModal.tsx:111-116 | the status changes and only its error is cleared |
| SecurityAreaModal.PrefillSpec | src/components/Security/SecurityAreaModal.tsx:57-86 | an edit prefill copies the area and cuts its date before the 'T'; a create form is level baixo, status ativo, with an empty allowlist |
| SecurityAreaModal.FormErrorsSpec | src/components/Security/SecurityAreaModal.tsx:88-112 | each field's error is recorded exactly when its check fails, with a message; valid exactly when there is no error |
| SecurityAreaModal.EmptyAllowlistRefused | src/components/Security/SecurityAreaModal.tsx:105-107 | an empty allowlist is rejected |
| SecurityAreaModal.EditTouchesOnlyItsField | src/components/Security/SecurityAreaModal.tsx:130-131 | editing one field leaves every other field's verdict as it was |
| SecurityAreaModal.WithUserSpec | src/components/Security/SecurityAreaModal.tsx:137-140 | adding makes the e-mail present, keeps the old list as a prefix, adds nothing when it is present already, and keeps a list free of repeats |
| SecurityAreaModal.WithoutUserSpec | src/components/Security/SecurityAreaModal.tsx:145-147 | removing drops every occurrence, keeps the rest in order, and keeps a list free of repeats |
| SecurityAreaModal.AddThenRemoveRestores | src/components/Security/SecurityAreaModal.tsx:137-147 | adding an absent e-mail and removing it restores the list |
| SecurityAreaModal.PickerSpec | src/components/Security/SecurityAreaModal.tsx:149-152 | the picker offers exactly the known e-mails that contain the term and are not selected, in order |
| SecurityAreaModal.PickedIsNoLongerOffered | src/components/Security/SecurityAreaModal.tsx:137-152 | an added e-mail is not offered again, whatever the next term |
| SecurityAreaModal.AreaDialog.constructor | src/components/Security/SecurityAreaModal.tsx:40-56 | the form starts as the create default with the picker closed |
| SecurityAreaModal.AreaDialog.Open | src/components/Security/SecurityAreaModal.tsx:57-86 | opening prefills the form and clears the errors |
| SecurityAreaModal.AreaDialog.Validate | src/components/Security/SecurityAreaModal.tsx:88-112 | the errors are rebuilt as `FormErrors`, and the result says whether there are none |
| SecurityAreaModal.AreaDialog.HandleSubmit | src/components/Security/SecurityAreaModal.tsx:114-128 | a form without errors is handed on with its date as a full timestamp, and closing is asked for |
| SecurityAreaModal.AreaDialog.ChangeText | src/components/Security/SecurityAreaModal.tsx:130-135 | one text field changes and only its error is cleared |
| SecurityAreaModal.AreaDialog.ChangeNivel | src/components/Security/SecurityAreaModal.tsx:130-135 | the level changes and only its error is cleared |
| SecurityAreaModal.AreaDialog.ChangeStatus | src/components/Security/SecurityAreaModal.tsx:130-135 | the status changes and only its error is cleared |
| SecurityAreaModal.AreaDialog.HandleAddUser | src/components/Security/SecurityAreaModal.tsx:137-143 | the allowlist gains the e-mail if absent (and the allowlist error clears then); the picker closes and its term empties either way |
| SecurityAreaModal.AreaDialog.HandleRemoveUser | src/components/Security/SecurityAreaModal.tsx:145-147 | the allowlist loses the e-mail |
| SecurityAreaModal.AreaDialog.SetUserSearchTerm | src/components/Security/SecurityAreaModal.tsx:358-362 | only the picker term changes |
| SecurityAreaModal.AreaDialog.FocusPicker | src/components/Security/SecurityAreaModal.tsx:363-367 | the picker opens, and its list shows exactly when it offers something |
| Language.TableOf | src/contexts/LanguageContext.tsx:11-224 | a table exists exactly for 'pt-BR' and 'en-US', with one text per key |
| Language.Lookup | src/contexts/LanguageContext.tsx:242 | a key is found exactly when the table holds it, and the text is the one stored under it |
| Language.TranslateSpec | src/contexts/LanguageContext.tsx:241-243 | the key comes back for an unknown language or key; otherwise the stored non-empty text; a non-empty key never translates to "" |
| Language.SameKeySet | src/contexts/LanguageContext.tsx:11-223 | both tables answer for the same keys |
| Language.NavigationLabels | src/contexts/LanguageContext.tsx:15-121 | "nav.security" reads "Segurança", "Security", and itself in a language with no table |
| Language.ChangeThenLoad | src/contexts/LanguageContext.tsx:229-239 | a changed language is the one loaded next time, unvalidated |
| Language.LanguageProvider.constructor | src/contexts/LanguageContext.tsx:227 | the language starts as 'pt-BR' |
| Language.LanguageProvider.Load | src/contexts/LanguageContext.tsx:229-234 | a saved non-empty language replaces the current one |
| Language.LanguageProvider.ChangeLanguage | src/contexts/LanguageContext.tsx:236-239 | the language is set and written to the store |
| Theme.EffectiveSpec | src/contexts/ThemeContext.tsx:17-31 | 'dark' is dark, 'light' is not, and 'auto' is dark exactly when the system is; the effective theme is never 'auto' |
| Theme.ToggleSpec | src/contexts/ThemeContext.tsx:73-76 | the toggle never picks 'auto', flips the darkness whatever the system later prefers, and two toggles restore it |
| Theme.LoadedTheme | src/contexts/ThemeContext.tsx:40-49 | a saved non-empty theme is used as it is, else 'dark' |
| Theme.StaleListenerIgnoresAuto | src/contexts/ThemeContext.tsx:52-57 | the listener as written ignores a system change under 'auto' |
| Theme.SystemChangeKeepsDarkModeRight | src/contexts/ThemeContext.tsx:22-57 | the corrected listener keeps dark mode equal to the resolution of the current theme |
| Theme.ThemeProvider.constructor | src/contexts/ThemeContext.tsx:13-14 | the theme starts as 'dark' with dark mode off |
| Theme.ThemeProvider.ApplyTheme | src/contexts/ThemeContext.tsx:22-38 | dark mode and the 'dark' class both become the resolved darkness |
| Theme.ThemeProvider.Load | src/contexts/ThemeContext.tsx:40-65 | the loaded theme is set and applied |
| Theme.ThemeProvider.SetTheme | src/contexts/ThemeContext.tsx:67-71 | the theme is set, stored and applied |
| Theme.ThemeProvider.ToggleTheme | src/contexts/ThemeContext.tsx:73-76 | 'light' when dark mode was on, else 'dark', stored and applied, so dark mode flips |
| Theme.ThemeProvider.SystemThemeChanged | src/contexts/ThemeContext.tsx:52-57 | after a system change the applied state matches the new preference (corrected listener) |
| Timezone.OptionsTable | src/contexts/TimezoneContext.tsx:14-25 | seven options with distinct keys and offsets in -12..14; the default is one of them |
| Timezone.InheritedNameAccepted | src/contexts/TimezoneContext.tsx:29 | the guard as written adopts "constructor", which is no option |
| Timezone.LoadedSpec | src/contexts/TimezoneContext.tsx:27-31 | the corrected load adopts a saved zone exactly when it is an option, and keeps a valid current zone valid |
| Timezone.GuardsAgreeOnOwnKeys | src/contexts/TimezoneContext.tsx:29 | for saved text that is no inherited name, both guards agree |
| Timezone.SetThenLoad | src/contexts/TimezoneContext.tsx:27-37 | a zone that was set is loaded back when it is an option, else the default is kept |
| Timezone.TimezoneProvider.constructor | src/contexts/TimezoneContext.tsx:25 | the zone starts as 'America/Sao_Paulo' |
| Timezone.TimezoneProvider.Load | src/contexts/TimezoneContext.tsx:27-32 | the zone becomes the corrected load of the saved text |
| Timezone.TimezoneProvider.SetTimezone | src/contexts/TimezoneContext.tsx:34-37 | the zone is set and stored without checking it |
| SettingsPage.SaveSpec | src/pages/Settings.tsx:38-135 | nothing is pushed exactly when nothing changed; the pushes turn the applied values into the draft, after which nothing has changed |
| SettingsPage.TakeAppend | src/pages/Settings.tsx:38-52 | applying pushes in two batches is applying them in one |
| SettingsPage.ThemeLabelSpec | src/pages/Settings.tsx:123-130 | the label is 'Escuro' exactly for anything but 'light' and 'auto' |
| SettingsPage.StoredSpec | src/pages/Settings.tsx:38-52 | saving writes only the changed keys among language, theme and timezone |
| SettingsPage.SettingsView.constructor | src/pages/Settings.tsx:16-35 | the draft starts as the applied values, so nothing has changed |
| SettingsPage.SettingsView.HandleSave | src/pages/Settings.tsx:38-59 | the changed values are applied and stored, nothing has changed afterwards, and one notification is added |
| SettingsPage.SettingsView.ClickSave | src/pages/Settings.tsx:404-405 | the save button does nothing when nothing has changed |
| SettingsPage.SettingsView.HandleLanguageChange | src/pages/Settings.tsx:61-66 | only the draft language changes |
| SettingsPage.SettingsView.HandleThemeChange | src/pages/Settings.tsx:68-73 | only the draft theme changes |
| SettingsPage.SettingsView.HandleTimezoneChange | src/pages/Settings.tsx:75-80 | only the draft timezone changes |
| SettingsPage.SettingsView.SetNotificationPrefs | src/pages/Settings.tsx:153-259 | the notification toggles never change whether there is something to save |
| SettingsPage.SettingsView.SetSecurityPrefs | src/pages/Settings.tsx:153-259 | the security toggles never change whether there is something to save |
| SettingsPage.SettingsView.OpenBackupModal | src/pages/Settings.tsx:385 | the restore dialog opens and the draft is kept |
| SettingsPage.SettingsView.CloseBackupModal | src/pages/Settings.tsx:35 | the restore dialog closes and the draft is kept |
| SearchDropdown.ViewPriority | src/components/Layout/SearchDropdown.tsx:100-161 | spinner exactly while searching; otherwise no-results, list or hint by term and count; the final blank branch is unreachable |
| SearchDropdown.RoutesAreMenuPages | src/components/Layout/SearchDropdown.tsx:12-38 | every type leads to a distinct page of the side menu and has a label and a colour |
| SearchDropdown.FooterSpec | src/components/Layout/SearchDropdown.tsx:165-168 | the footer shows exactly when there are results, starts with the count, and says 's' exactly when the count is not 1 |
| SearchDropdown.FooterWording | src/components/Layout/SearchDropdown.tsx:165-168 | one result reads "1 resultado encontrado", two read "2 resultados encontrados" |
| Header.ToggleLanguageSpec | src/components/Layout/Header.tsx:22-25 | the toggle gives 'pt-BR' or 'en-US', maps anything but 'pt-BR' to 'pt-BR', and is its own inverse on the two |
| Header.FirstCharsSpec | src/components/Layout/Header.tsx:88 | one initial per non-empty word at most, each the first character of a word |
| Header.InitialsSpec | src/components/Layout/Header.tsx:88 | there are no more initials than words, and no space among them |
| Header.BruceInitials | src/components/Layout/Header.tsx:88 | "Bruce Wayne" gives "BW" |
| Header.HeaderView.constructor | src/components/Layout/Header.tsx:20 | the dropdown starts closed |
| Header.HeaderView.HandleSearchFocus | src/components/Layout/Header.tsx:27-29 | focusing opens the dropdown |
| Header.HeaderView.HandleSearchClose | src/components/Layout/Header.tsx:31-33 | closing hides the dropdown |
| Header.HeaderView.TypeSearch | src/components/Layout/Header.tsx:50-54 | typing sets the shared term and shows its results |
| Header.HeaderView.ToggleLanguage | src/components/Layout/Header.tsx:22-25 | the language becomes the toggled one and is stored |
| Header.HeaderView.HandleResultClick | src/components/Layout/SearchDropdown.tsx:59-64 | a click moves to the result type's page (when navigation is wired), closes the dropdown and clears the search |

## Left out

- Text.ToLower: folds only the ASCII capitals and the Latin-1 capitals U+00C0 to U+00DE. `toLowerCase` folds capitals in every script (for example 'Ł', 'Ω' and 'Д'), and 'İ' even becomes two code units. The search and filter rows (SearchContext.SearchFindsExactlyThe*, UsersPage.FilteredUsersSpec, ResourcesPage.FilteredRecursosSpec, SecurityPage.FilteredAreasSpec, SecurityAreaModal.PickerSpec) therefore describe a case-insensitive match that differs from the program's on text with other capitals.
- Auth.SessionPermission: a `nivel` member that is not a string grants nothing. The program converts the member to text before looking up its rank, so an array such as ["admin"] would still be granted.
- Timers: the search debounce, the delay before results show, the restore step delays, the backup
  creation delay and the page reload are taken as instantaneous. `isSearching` is therefore down again
  when a search call returns.
- JSON text: `JSON.parse` and `JSON.stringify` are parameters. The Blob, the object URL and the anchor
  click of `downloadBackup` are left out; only its file name is modelled.
- Browser environment:
  - `confirm()` dialogs count as confirmed.
  - `window.matchMedia` is a boolean parameter.
  - `document.documentElement`'s class is the `darkClass` field.
  - `Date.now()` and `new Date()` are id and time parameters.
- Locale formatting (`formatDate`, `formatDateTime`, `toLocaleString`, currency text) is locale
  dependent and not modelled.
- `parseFloat` and `parseInt` on form input: the form methods take the already parsed number.
- Notifications sent by the page handlers, the form dialogs and the restore dialog: only their titles
  are kept (restore dialog) or they are dropped (pages). Settings saving keeps its notification.
- `handleCreateBackup` and `handleRestoreBackup` of the settings page: the generated data, the download
  name and the applied store are modelled in the backup utilities; the settings page's own delay,
  busy flag and notifications are not.
- `t()` of a key that names an inherited object property (such as "toString"): the model returns the
  key, while the original would return the inherited member.
- Translation texts are kept as data. The two tables share one key column, so that the key sets are
  equal by construction; the texts of each language are listed in their own column.
- Presentational components (dashboard, cards, details modal, login form, routing), icons, colours
  beyond the dropdown's table, and the click-outside listener of the dropdown.
- The mock seed arrays of the different files are example data; agreement between the copies is not
  modelled.

## Findings

| source | as written | input that shows it | evidently intended | confidence | as-written member | corrected member |
|---|---|---|---|---|---|---|
| src/contexts/ThemeContext.tsx:52-57 | the system-preference listener is registered once, in the load effect, and tests the `theme` captured then, which is always the initial 'dark' | start with 'auto' saved, then let the system switch from light to dark: the listener sees 'dark', does nothing, and dark mode stays off | under 'auto', a system change re-applies the theme so dark mode follows the system | not executed | Theme.StaleListenerIgnoresAuto | Theme.SystemChangeKeepsDarkModeRight |
| src/contexts/TimezoneContext.tsx:29 | the load guard indexes the options object with the saved text, so any name the object inherits passes | saved timezone "constructor": the guard is truthy and the zone becomes "constructor", which is no option | adopt only a saved zone that is one of the seven option keys | not executed | Timezone.InheritedNameAccepted | Timezone.LoadedSpec |
