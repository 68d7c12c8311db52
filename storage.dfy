/**
 * The browser's `localStorage`: a string-keyed store of strings, and the keys the dashboard
 * keeps in it.
 */
module Storage {
  import opened Wrappers

  const UserKey := "wayne-user"
  const LanguageKey := "wayne-language"
  const ThemeKey := "wayne-theme"
  const TimezoneKey := "wayne-timezone"
  const BackupDataKey := "wayne-backup-data"
  const BackupRestoredKey := "wayne-backup-restored"
  const BackupTimestampKey := "wayne-backup-timestamp"

  class Store {
    var items: map<string, string>

    constructor (items: map<string, string>)
      ensures this.items == items
    {
      this.items := items;
    }

    /** `getItem`: the stored text, or `null` (here `None`) for a missing key. */
    function GetItem(key: string): (r: Option<string>)
      reads this
      ensures r.Some? <==> key in items
      ensures r.Some? ==> r.value == items[key]
    {
      if key in items then Some(items[key]) else None
    }

    /** `setItem`: the key now holds the value; no other key changes. */
    method SetItem(key: string, value: string)
      modifies this
      ensures items == old(items)[key := value]
    {
      items := items[key := value];
    }

    /** `removeItem`: the key is gone; no other key changes. */
    method RemoveItem(key: string)
      modifies this
      ensures items == old(items) - {key}
    {
      items := items - {key};
    }
  }

  /** `getItem(key) || fallback`: a missing or empty entry gives the fallback. */
  function ItemOr(items: map<string, string>, key: string, fallback: string): (r: string)
    ensures key in items && items[key] != "" ==> r == items[key]
    ensures !(key in items && items[key] != "") ==> r == fallback
  {
    if key in items && items[key] != "" then items[key] else fallback
  }

  /** The store's keys are all different texts, so writing one never touches another. */
  lemma KeysAreDistinct()
    ensures |{UserKey, LanguageKey, ThemeKey, TimezoneKey, BackupDataKey, BackupRestoredKey, BackupTimestampKey}| == 7
  {
    assert UserKey[6] != LanguageKey[6] && LanguageKey[6] != ThemeKey[6];
    assert TimezoneKey[7] != ThemeKey[7];
    assert BackupDataKey[13] != BackupRestoredKey[13] && BackupDataKey[13] != BackupTimestampKey[13];
    assert BackupRestoredKey[13] != BackupTimestampKey[13];
  }
}
