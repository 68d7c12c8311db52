/**
 * The time zone preference: a fixed table of seven zones, the zone in force, and the store it
 * is kept in. Date formatting in a zone is locale machinery outside this model.
 */
module Timezone {
  import opened Wrappers
  import opened Storage

  /** A zone of the options table: its key, its display name and its hour offset from UTC. */
  datatype TimezoneOption = TimezoneOption(key: string, name: string, offset: int)

  const TimezoneOptions: seq<TimezoneOption> := [
    TimezoneOption("America/Sao_Paulo", "São Paulo (UTC-3)", -3),
    TimezoneOption("America/New_York", "New York (UTC-5)", -5),
    TimezoneOption("Europe/London", "London (UTC+0)", 0),
    TimezoneOption("Asia/Tokyo", "Tokyo (UTC+9)", 9),
    TimezoneOption("Australia/Sydney", "Sydney (UTC+11)", 11),
    TimezoneOption("Europe/Paris", "Paris (UTC+1)", 1),
    TimezoneOption("America/Los_Angeles", "Los Angeles (UTC-8)", -8)
  ]

  const DefaultTimezone := "America/Sao_Paulo"

  /** The zone is a key of the options table. */
  predicate IsOption(zone: string) {
    exists i :: 0 <= i < |TimezoneOptions| && TimezoneOptions[i].key == zone
  }

  /** The table has seven zones with different keys and offsets between UTC-12 and UTC+14, and
    * the default zone is one of them. */
  lemma OptionsTable()
    ensures |TimezoneOptions| == 7
    ensures forall i, j :: 0 <= i < j < |TimezoneOptions| ==> TimezoneOptions[i].key != TimezoneOptions[j].key
    ensures forall i :: 0 <= i < |TimezoneOptions| ==> -12 <= TimezoneOptions[i].offset <= 14
    ensures IsOption(DefaultTimezone)
  {
    assert TimezoneOptions[0].key == DefaultTimezone;
    assert TimezoneOptions[1].key[8] != TimezoneOptions[4].key[8];
  }

  /**
   * The names a plain object answers for through its prototype even though they are not its own
   * keys; indexing the options table with one of them gives a value that counts as true.
   */
  const InheritedNames: set<string> := {
    "constructor", "hasOwnProperty", "isPrototypeOf", "propertyIsEnumerable", "toLocaleString",
    "toString", "valueOf", "__proto__", "__defineGetter__", "__defineSetter__",
    "__lookupGetter__", "__lookupSetter__"
  }

  /** The load guard as written: a saved non-empty text whose lookup in the options table gives
    * something; inherited names pass as well as the table's keys. */
  predicate PassesGuardAsWritten(saved: string) {
    saved != "" && (IsOption(saved) || saved in InheritedNames)
  }

  /** The zone the load effect settles on, as written. */
  function LoadedAsWritten(saved: Option<string>, current: string): string {
    if saved.Some? && PassesGuardAsWritten(saved.value) then saved.value else current
  }

  /** The guard as written lets a stored "constructor" through, although it names no zone. */
  lemma InheritedNameAccepted()
    ensures LoadedAsWritten(Some("constructor"), DefaultTimezone) == "constructor"
    ensures !IsOption("constructor")
  {
  }

  /** The zone the load effect evidently means to settle on: the saved text when it is a key of
    * the options table, otherwise the zone held before. */
  function Loaded(saved: Option<string>, current: string): string {
    if saved.Some? && IsOption(saved.value) then saved.value else current
  }

  /** Loading keeps the zone a key of the table; a saved key is adopted; whatever else is saved
    * leaves the current zone. */
  lemma LoadedSpec(saved: Option<string>, current: string)
    ensures IsOption(current) ==> IsOption(Loaded(saved, current))
    ensures saved.Some? && IsOption(saved.value) ==> Loaded(saved, current) == saved.value
    ensures !(saved.Some? && IsOption(saved.value)) ==> Loaded(saved, current) == current
  {
  }

  /** On the table's own keys and on texts that are not inherited names, the two guards agree. */
  lemma GuardsAgreeOnOwnKeys(saved: Option<string>, current: string)
    requires saved.Some? ==> saved.value !in InheritedNames
    ensures LoadedAsWritten(saved, current) == Loaded(saved, current)
  {
    if saved.Some? && IsOption(saved.value) {
      var i :| 0 <= i < |TimezoneOptions| && TimezoneOptions[i].key == saved.value;
      assert saved.value != "";
    }
  }

  /** `setTimezone` stores what it is given unchecked; a zone outside the table that it stored is
    * refused at the next load, and a zone of the table is picked up. */
  lemma SetThenLoad(items: map<string, string>, zone: string)
    ensures IsOption(zone) ==> Loaded(Some(items[TimezoneKey := zone][TimezoneKey]), DefaultTimezone) == zone
    ensures !IsOption(zone) ==> Loaded(Some(items[TimezoneKey := zone][TimezoneKey]), DefaultTimezone) == DefaultTimezone
  {
  }

  /** The time zone provider's state. */
  class TimezoneProvider {
    var timezone: string
    const store: Store

    constructor (store: Store)
      ensures timezone == DefaultTimezone && this.store == store
    {
      timezone := DefaultTimezone;
      this.store := store;
    }

    /** The load effect: a saved zone of the table replaces the current one. */
    method Load()
      modifies this
      ensures timezone == Loaded(store.GetItem(TimezoneKey), old(timezone))
    {
      var savedTimezone := store.GetItem(TimezoneKey);
      if savedTimezone.Some? && IsOption(savedTimezone.value) {
        timezone := savedTimezone.value;
      }
    }

    /** `setTimezone`: the zone is set and stored, without a check against the table. */
    method SetTimezone(zone: string)
      modifies this, store
      ensures timezone == zone
      ensures store.items == old(store.items)[TimezoneKey := zone]
    {
      timezone := zone;
      store.SetItem(TimezoneKey, zone);
    }
  }
}
