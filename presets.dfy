/**
 The custom preset store: a map from preset name to parameter set, kept in the
 browser's local storage. Saving trims the typed name, refuses an empty one and
 overwrites an existing entry; deleting needs the user's confirmation and removes
 only a name that is present.
 */
module Presets {
  import opened Settings
  import opened Text

  /** Assigning to this key of a JavaScript object replaces the object's prototype instead of
      adding an own entry, so the store written back as JSON does not hold it. */
  const PrototypeKey: string := "__proto__"

  /** A typed name under which a save really adds an entry. */
  predicate Storable(rawName: string) {
    !AllWhiteSpace(rawName) && Trim(rawName) != PrototypeKey
  }

  /** The store after saving current under the name typed as rawName. */
  function SaveInto(store: map<string, ParamSet>, rawName: string, current: ParamSet): (r: map<string, ParamSet>)
    ensures !Storable(rawName) ==> r == store
    ensures Storable(rawName) ==>
      r.Keys == store.Keys + {Trim(rawName)} && r[Trim(rawName)] == current
    ensures forall k :: k in store && k != Trim(rawName) ==> k in r && r[k] == store[k]
  {
    var name := Trim(rawName);
    if name == [] || name == PrototypeKey then store else store[name := current]
  }

  /** The store after the user answered the deletion dialog for name with confirmed. */
  function DeleteFrom(store: map<string, ParamSet>, name: string, confirmed: bool): (r: map<string, ParamSet>)
    ensures confirmed && name in store ==> r.Keys == store.Keys - {name}
    ensures !confirmed || name !in store ==> r == store
    ensures forall k :: k in r ==> k in store && r[k] == store[k]
    ensures |r| == if confirmed && name in store then |store| - 1 else |store|
  {
    if confirmed && name in store then
      var r := store - {name};
      assert store.Keys == r.Keys + {name};
      r
    else
      store
  }

  /** Saving under a name typed with surrounding white space is saving under the trimmed name. */
  lemma {:induction false} SaveUnderTrimmedName(store: map<string, ParamSet>, rawName: string, current: ParamSet)
    ensures SaveInto(store, Trim(rawName), current) == SaveInto(store, rawName, current)
  {
    TrimIdempotent(rawName);
  }

  /** Saving twice under the same name keeps only the second settings. */
  lemma SaveOverwrites(store: map<string, ParamSet>, rawName: string, p: ParamSet, q: ParamSet)
    ensures SaveInto(SaveInto(store, rawName, p), rawName, q) == SaveInto(store, rawName, q)
  {
  }

  /** A preset saved under a storable name is found again under its trimmed name with the
      settings it was saved with, and deleting it with confirmation leaves every other preset as
      it was; under any other name the save leaves the store as it was. */
  lemma SaveThenDelete(store: map<string, ParamSet>, rawName: string, p: ParamSet)
    ensures var saved := SaveInto(store, rawName, p);
      && (Storable(rawName) ==>
            && Trim(rawName) in saved && saved[Trim(rawName)] == p
            && DeleteFrom(saved, Trim(rawName), true) == store - {Trim(rawName)})
      && (!Storable(rawName) ==> saved == store)
  {
    var saved := SaveInto(store, rawName, p);
    var name := Trim(rawName);
    if Storable(rawName) {
      var r := DeleteFrom(saved, name, true);
      assert r.Keys == (store - {name}).Keys;
    }
  }

  /** Declining the dialog, or deleting a name that is absent, keeps every saved preset. */
  lemma DeleteAbsentOrDeclined(store: map<string, ParamSet>, name: string, confirmed: bool)
    requires !confirmed || name !in store
    ensures DeleteFrom(store, name, confirmed) == store
  {
  }

  /** A preset saved as "Test1" is found under that name with the saved settings, and
      deleting it leaves the other presets untouched. */
  lemma Test1Scenario(store: map<string, ParamSet>, p: ParamSet)
    ensures var saved := SaveInto(store, "Test1", p);
      && "Test1" in saved && saved["Test1"] == p
      && DeleteFrom(saved, "Test1", true) == store - {"Test1"}
  {
    assert !IsWhiteSpace('T') && !IsWhiteSpace('1');
    assert "Test1"[0] == 'T' && "Test1"[4] == '1';
    assert Trim("Test1") == "Test1";
    assert Storable("Test1");
    SaveThenDelete(store, "Test1", p);
  }

  /** The custom presets as the local storage holds them. */
  class Store {
    var saved: map<string, ParamSet>

    constructor(initial: map<string, ParamSet>)
      ensures saved == initial
    {
      saved := initial;
    }

    /** Saves current under the trimmed rawName. ok is false, and nothing changes, when the
        trimmed name is empty. The prototype key is reported as saved but adds no entry. */
    method Save(rawName: string, current: ParamSet) returns (ok: bool)
      modifies this
      ensures ok <==> !AllWhiteSpace(rawName)
      ensures saved == SaveInto(old(saved), rawName, current)
    {
      var name := Trim(rawName);
      if name == [] {
        return false;
      }
      if name != PrototypeKey {
        saved := saved[name := current];
      }
      ok := true;
    }

    /** Deletes name when the user confirmed and the name is saved; otherwise nothing changes. */
    method Delete(name: string, confirmed: bool)
      modifies this
      ensures saved == DeleteFrom(old(saved), name, confirmed)
    {
      if confirmed && name in saved {
        saved := saved - {name};
      }
    }
  }
}
