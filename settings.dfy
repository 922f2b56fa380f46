/** The API-key settings dialog of components/SettingsModal.tsx and the one
    localStorage slot `SCW_API_KEY` it reads and writes. The browser's
    localStorage is a `map<string, string>`. */
module Settings {
  import opened Text

  const ApiKeySlot: string := "SCW_API_KEY"

  /** `localStorage.getItem('SCW_API_KEY') || ''`: what the input field shows on opening. */
  function StoredKey(store: map<string, string>): (v: string)
    ensures ApiKeySlot in store ==> v == store[ApiKeySlot]
    ensures ApiKeySlot !in store ==> v == ""
  {
    if ApiKeySlot in store then store[ApiKeySlot] else ""
  }

  /** The store after `handleSave` with `input` in the field: the trimmed
      input is stored, a blank input removes the slot. */
  function SaveKey(store: map<string, string>, input: string): (r: map<string, string>)
    ensures Trim(input) != "" ==> ApiKeySlot in r && r[ApiKeySlot] == Trim(input)
    ensures Trim(input) == "" ==> ApiKeySlot !in r
    ensures r - {ApiKeySlot} == store - {ApiKeySlot}
  {
    var key := Trim(input);
    if key != "" then
      UpdateKeepsOthers(store, ApiKeySlot, key);
      store[ApiKeySlot := key]
    else
      RemoveTwice(store, ApiKeySlot);
      store - {ApiKeySlot}
  }

  /** The store after `handleClear`: the slot is removed, nothing else changes. */
  function ClearKey(store: map<string, string>): (r: map<string, string>)
    ensures ApiKeySlot !in r
    ensures r - {ApiKeySlot} == store - {ApiKeySlot}
  {
    RemoveTwice(store, ApiKeySlot);
    store - {ApiKeySlot}
  }

  /** Writing a slot leaves every other slot of the map as it was. */
  lemma UpdateKeepsOthers<K, V>(m: map<K, V>, k: K, v: V)
    ensures m[k := v] - {k} == m - {k}
  {
  }

  /** Removing a slot twice is removing it once. */
  lemma RemoveTwice<K, V>(m: map<K, V>, k: K)
    ensures m - {k} - {k} == m - {k}
  {
  }

  /** Writing the same value to a slot twice is writing it once. */
  lemma UpdateTwice<K, V>(m: map<K, V>, k: K, v: V)
    ensures m[k := v][k := v] == m[k := v]
  {
  }

  /** `!!localStorage.getItem('SCW_API_KEY')`, App's `hasCustomKey` (App.tsx). */
  predicate HasCustomKey(store: map<string, string>)
  {
    ApiKeySlot in store && store[ApiKeySlot] != ""
  }

  /** What the dialog ever writes: a non-empty value equal to its own trim. */
  predicate SlotWellFormed(store: map<string, string>)
  {
    ApiKeySlot in store ==> store[ApiKeySlot] != "" && Trim(store[ApiKeySlot]) == store[ApiKeySlot]
  }

  /** After a save the slot is well formed, whatever the store held before
      and whatever the input. */
  lemma SaveKeepsSlotWellFormed(store: map<string, string>, input: string)
    ensures SlotWellFormed(SaveKey(store, input))
  {
    TrimIdempotent(input);
  }

  /** After a clear the slot is well formed, whatever the store held before. */
  lemma ClearKeepsSlotWellFormed(store: map<string, string>)
    ensures SlotWellFormed(ClearKey(store))
  {
  }

  /** Round trip: reopening after a save shows the trimmed input, or "" for a blank one. */
  lemma SaveThenOpen(store: map<string, string>, input: string)
    ensures StoredKey(SaveKey(store, input)) == Trim(input)
  {
  }

  /** Saving the same input twice leaves the same store as saving it once. */
  lemma SaveTwice(store: map<string, string>, input: string)
    ensures SaveKey(SaveKey(store, input), input) == SaveKey(store, input)
  {
    var t := Trim(input);
    if t != "" {
      UpdateTwice(store, ApiKeySlot, t);
    } else {
      RemoveTwice(store, ApiKeySlot);
    }
  }

  /** Saving the text the field shows after a save changes nothing more. */
  lemma SaveReopenedIsStable(store: map<string, string>, input: string)
    ensures SaveKey(SaveKey(store, input), StoredKey(SaveKey(store, input))) == SaveKey(store, input)
  {
    var once := SaveKey(store, input);
    SaveThenOpen(store, input);
    TrimIdempotent(input);
    assert SaveKey(once, Trim(input)) == SaveKey(once, input);
    SaveTwice(store, input);
  }

  /** After a save `hasCustomKey` is true exactly when the trimmed input is
      non-empty, whatever the store held before. */
  lemma SaveSetsFlag(store: map<string, string>, input: string)
    ensures HasCustomKey(SaveKey(store, input)) <==> Trim(input) != ""
  {
  }

  /** On a slot the dialog wrote, `hasCustomKey` is true exactly when the slot holds a value. */
  lemma CustomKeyIffStored(store: map<string, string>)
    requires SlotWellFormed(store)
    ensures HasCustomKey(store) <==> ApiKeySlot in store
  {
  }

  /** The dialog (its field `apiKey`) together with the state it changes
      outside itself: localStorage, the parent's `isSettingsOpen` and the
      parent's `hasCustomKey`, which `onSettingsChanged` refreshes. */
  class SettingsModal {
    var store: map<string, string>
    var apiKey: string
    var isOpen: bool
    var hasCustomKey: bool

    /** The parent's flag agrees with the store. */
    ghost predicate Valid()
      reads this
    {
      hasCustomKey == HasCustomKey(store)
    }

    /** App mounts with the dialog closed and runs `checkKeyStatus` once,
        over whatever localStorage holds (the slot may hold "" or a padded
        value written elsewhere). */
    constructor (initialStore: map<string, string>)
      ensures Valid()
      ensures store == initialStore && apiKey == "" && !isOpen
    {
      store := initialStore;
      apiKey := "";
      isOpen := false;
      hasCustomKey := HasCustomKey(initialStore);
    }

    /** The settings button sets `isOpen`; the effect then loads the field. */
    method Open()
      requires Valid()
      modifies this
      ensures Valid()
      ensures isOpen && apiKey == StoredKey(store)
      ensures store == old(store) && hasCustomKey == old(hasCustomKey)
    {
      isOpen := true;
      apiKey := StoredKey(store);
    }

    /** The password input's `onChange`. */
    method Type(text: string)
      requires Valid()
      modifies this
      ensures Valid()
      ensures apiKey == text
      ensures store == old(store) && isOpen == old(isOpen) && hasCustomKey == old(hasCustomKey)
    {
      apiKey := text;
    }

    /** `handleSave`: write or remove the slot, notify the parent, close. */
    method Save()
      requires Valid()
      modifies this
      ensures Valid() && SlotWellFormed(store)
      ensures store == SaveKey(old(store), old(apiKey))
      ensures hasCustomKey == (Trim(old(apiKey)) != "")
      ensures !isOpen && apiKey == old(apiKey)
    {
      SaveKeepsSlotWellFormed(store, apiKey);
      SaveSetsFlag(store, apiKey);
      store := SaveKey(store, apiKey);
      hasCustomKey := HasCustomKey(store);
      isOpen := false;
    }

    /** `handleClear`: remove the slot, empty the field, notify the parent, close. */
    method Clear()
      requires Valid()
      modifies this
      ensures Valid() && SlotWellFormed(store)
      ensures store == ClearKey(old(store))
      ensures !hasCustomKey && !isOpen && apiKey == ""
    {
      ClearKeepsSlotWellFormed(store);
      store := ClearKey(store);
      apiKey := "";
      hasCustomKey := HasCustomKey(store);
      isOpen := false;
    }

    /** The close button: only the parent's flag changes. */
    method Close()
      requires Valid()
      modifies this
      ensures Valid()
      ensures !isOpen && store == old(store) && apiKey == old(apiKey) && hasCustomKey == old(hasCustomKey)
    {
      isOpen := false;
    }
  }
}
