/** Switching between configurations in one flat store, where a swap of the live settings waits until
    the windows are closed. */
module MultiSettings {
  import opened Configurations
  import opened StoredConfigurations
  import opened SettingsEffects
  import opened SettingsStore

  class MultiSettings {
    var store: Dictionary
    var groups: seq<string>
    var current: string
    var newSettings: Dictionary
    var repositionType: RepositionType
    var exitFlag: bool
    var mainWindow: bool

    function Now(): Machine
      reads `store, `current, `newSettings, `repositionType, `exitFlag, `mainWindow
    {
      Machine(store, current, newSettings, repositionType, exitFlag, mainWindow)
    }

    // Opens a store with the configuration used last, or the default one, or the one asked for.
    constructor (initial: Dictionary, configName: string)
      ensures groups == [] && Now() == Started(initial, configName)
    {
      store, groups, current, newSettings := initial, [], "", map[];
      repositionType, exitFlag, mainWindow := Unaltered, true, false;
      new;
      hide NamesOf, Contains, Extracted, Swapped, Saved, Prefixed;
      Convert();
      current := NameIn(store);
      var available := NamesOf(store);
      if current == "" {
        current := DEFAULT;
        SetName(current);
      }
      if configName != "" && configName in available && configName != current {
        newSettings := Extract(configName);
        current := configName;
        repositionType := SavingAndReplacing;
        var exit := Reposition();
      }
    }

    // Takes the key of earlier versions out of use.
    method Convert()
      requires groups == [] && current == "" && newSettings == map[]
      requires repositionType == Unaltered && exitFlag && !mainWindow
      modifies this
      ensures groups == [] && store == Converted(old(store)) && newSettings == map[]
      ensures repositionType == Unaltered && exitFlag && !mainWindow
    {
      hide NamesOf, Contains, Extracted, Swapped, Saved, Prefixed, Removed, Named;
      if OBSOLETE in store {
        current := TextIn(store, OBSOLETE);
        assert Prefix(groups) + OBSOLETE == OBSOLETE;
        Remove(OBSOLETE);
        ghost var s, name := store, current;
        if current != "" {
          newSettings := Extract(current);
          SetName(DEFAULT);
          repositionType := SavingAndReplacing;
          assert newSettings == Extracted(s, Prefix([ROOT, name]));
          var exit := Reposition();
        } else {
          SetName(DEFAULT);
        }
      }
    }

    // A window to choose configurations in.
    method CreateMenuActions()
      modifies `mainWindow
      ensures Now() == old(Now()).(mainWindow := true)
    {
      mainWindow := true;
    }

    /* The store */

    method GetSettings() returns (settings: Dictionary)
      ensures settings == Extracted(store, Prefix(groups))
    {
      var prefix := Prefix(groups);
      var keys := set k | k in store && prefix <= k :: k[|prefix|..];
      ghost var all := keys;
      settings := map[];
      hide Contains;
      assert forall key <- keys :: prefix + key in store by {
        KeysAreBehind(store, prefix);
      }
      while keys != {}
        invariant keys <= all
        invariant forall key: string :: key in settings <==> key in all - keys && Extracts(store, prefix, key)
        invariant forall key <- settings :: settings[key] == store[prefix + key]
        decreases |keys|
      {
        var key :| key in keys;
        if !Contains(key, ROOT) && !Contains(key, PLACEHOLDER) {
          settings := settings[key := store[prefix + key]];
        }
        keys := keys - {key};
      }
    }

    method LoadFrom(d: Dictionary, addPlaceholder: bool)
      modifies `store
      ensures store == old(store) + Prefixed(Prefix(groups), if addPlaceholder then Kept(d) else d)
    {
      hide Prefixed;
      var prefix := Prefix(groups);
      PrefixedNone(prefix);
      if d != map[] {
        var keys := d.Keys;
        assert d - keys == map[];
        while keys != {}
          invariant keys <= d.Keys && store == old(store) + Prefixed(prefix, d - keys)
          decreases |keys|
        {
          var key :| key in keys;
          PrefixedOneMore(old(store), prefix, d, keys, key);
          store := store[prefix + key := d[key]];
          keys := keys - {key};
        }
        assert d - {} == d;
      } else if addPlaceholder {
        PrefixedOne(prefix, PLACEHOLDER, Nothing);
        store := store[prefix + PLACEHOLDER := Nothing];
      }
    }

    // Removes a key and everything under it.
    method Remove(key: string)
      modifies `store
      ensures store == Removed(old(store), Prefix(groups) + key)
    {
      hide Under;
      var theKey := Prefix(groups) + key;
      store := map k | k in store && !Under(theKey, k) :: store[k];
    }

    // The same for the empty key, which stands for the group.
    method Purge()
      modifies `store
      ensures store == Purged(old(store), groups)
    {
      hide Under;
      var theKey := Group(groups);
      store := if theKey == "" then map[] else map k | k in store && !Under(theKey, k) :: store[k];
    }

    // Removes the live settings.
    method RemoveLive()
      requires groups == []
      modifies `store
      ensures store == Unlived(old(store))
    {
      hide Contains;
      var keys := store.Keys;
      ghost var done: set<string> := {};
      GoesNone();
      while keys != {}
        invariant keys + done == old(store).Keys
        invariant store == Lasting(old(store), done)
        decreases |keys|
      {
        hide Contains, Lasting, Removed;
        var key :| key in keys;
        LastingOneMore(old(store), done, key);
        assert Prefix(groups) + key == key;
        if !Contains(key, ROOT) {
          Remove(key);
        }
        keys, done := keys - {key}, done + {key};
      }
      UnlivedGoes(old(store));
    }

    /* Configurations */

    method Extract(name: string) returns (settings: Dictionary)
      requires groups == []
      modifies `groups
      ensures groups == [] && settings == Extracted(store, Prefix([ROOT, name]))
    {
      hide Extracted, Prefix;
      groups := groups + [ROOT] + [name];
      assert groups == [ROOT, name];
      settings := GetSettings();
      groups := [];
    }

    method WriteGroup(name: string, d: Dictionary)
      requires groups == []
      modifies `store, `groups
      ensures groups == [] && store == Loaded(old(store), name, d)
    {
      hide Prefixed, Kept, Prefix;
      groups := groups + [ROOT] + [name];
      assert groups == [ROOT, name];
      LoadFrom(d, true);
      groups := [];
    }

    method PurgeGroup(name: string)
      requires groups == []
      modifies `store, `groups
      ensures groups == [] && store == Purged(old(store), [ROOT, name])
    {
      hide Removed, Under;
      groups := groups + [ROOT] + [name];
      assert groups == [ROOT, name];
      Purge();
      groups := [];
    }

    method SetName(name: string)
      requires groups == []
      modifies `store, `groups
      ensures groups == [] && store == Named(old(store), name)
    {
      groups := groups + [ROOT];
      PrefixOfTwo("");
      store := store[Prefix(groups) + CURRENT_NAME := Text(name)];
      groups := [];
    }

    // Makes the new settings live, under the current name.
    method SwapIn()
      requires groups == []
      modifies `store, `groups
      ensures groups == [] && store == Swapped(old(store), newSettings, current)
    {
      hide Unlived, Prefixed;
      RemoveLive();
      LoadFrom(newSettings, false);
      PrefixedByNothing(newSettings);
      PurgeGroup(current);
      SetName(current);
    }

    // Swaps the live settings, once the windows are closed.
    method Reposition() returns (exit: bool)
      requires groups == []
      modifies this
      ensures groups == [] && Now() == Repositioned(old(Now())) && exit == old(exitFlag)
    {
      hide Extracted, Swapped, Loaded;
      if repositionType == SavingAndReplacing {
        var saved := GetSettings();
        var previous := if CommonKey(CURRENT_NAME) in store then NameIn(store) else DEFAULT;
        WriteGroup(previous, saved);
      }
      if repositionType != Unaltered {
        SwapIn();
      }
      newSettings := map[];
      repositionType := Unaltered;
      exit := exitFlag;
      exitFlag := true;
    }

    // Whether the program is to end, when its windows are closed: it starts again if a swap was asked for.
    method Exit() returns (exit: bool)
      requires groups == []
      modifies this
      ensures groups == [] && Now() == Repositioned(old(Now())) && exit == old(exitFlag)
      ensures Valid(old(Now())) ==> (exit <==> old(repositionType) == Unaltered)
    {
      hide Repositioned;
      exit := Reposition();
    }

    method Restart(how: RepositionType)
      modifies `repositionType, `exitFlag, `mainWindow
      ensures Now() == Restarted(old(Now()), how)
    {
      repositionType := how;
      exitFlag := false;
      mainWindow := false;
    }

    method SelectConfiguration(target: string)
      requires groups == []
      modifies this
      ensures groups == [] && Now() == Selected(old(Now()), target)
    {
      hide Extracted, NamesOf;
      if mainWindow && target != current && target in NamesOf(store) {
        newSettings := Extract(target);
        current := target;
        Restart(SavingAndReplacing);
      }
    }

    // Copies a configuration under the first free name for a copy, which is returned.
    method CloneConfiguration(source: string) returns (name: string)
      requires groups == []
      modifies this
      ensures groups == [] && Now() == Cloned(old(Now()), source, name)
      ensures IsCopyName(old(NamesOf(store)) + {current}, source, name)
    {
      hide Extracted, NamesOf, Loaded;
      var settings;
      if source == current {
        settings := GetSettings();
      } else {
        settings := Extract(source);
      }
      name := CopyName(NamesOf(store) + {current}, source);
      WriteGroup(name, settings);
    }

    // Overwrites one configuration with another, if that is confirmed.
    method CloneIntoConfiguration(target: string, source: string, confirmed: bool)
      requires groups == []
      modifies this
      ensures groups == [] && Now() == if confirmed then ClonedInto(old(Now()), target, source) else old(Now())
    {
      hide Extracted, Loaded, Purged;
      if !mainWindow || !confirmed {
        return;
      }
      if source == NameIn(store) {
        newSettings := GetSettings();
      } else {
        newSettings := Extract(source);
      }
      if target == current {
        Restart(Replacing);
      } else {
        Overwrite(target, newSettings);
        newSettings := map[];
      }
    }

    // Puts settings in the place of those in a group.
    method Overwrite(target: string, settings: Dictionary)
      requires groups == []
      modifies `store, `groups
      ensures groups == [] && store == Overwritten(old(store), target, settings)
    {
      hide Loaded, Purged;
      PurgeGroup(target);
      WriteGroup(target, settings);
    }

    // Empties a configuration, if that is confirmed.
    method ResetConfiguration(target: string, confirmed: bool)
      requires groups == []
      modifies this
      ensures groups == [] && Now() == if confirmed then Cleared(old(Now()), target) else old(Now())
    {
      if !mainWindow || !confirmed {
        return;
      }
      if target == current {
        newSettings := map[];
        Restart(Replacing);
      } else {
        Overwrite(target, map[]);
      }
    }

    // The dialog for a name gives it without the blanks around it, and refuses names that are taken.
    ghost predicate Accepts(text: string)
      reads `store
    {
      '/' !in text && '\\' !in text && Trimmed(text) !in NamesOf(store) + {NameIn(store)}
    }

    // Gives a configuration another name, if one is accepted.
    method RenameConfiguration(target: string, text: string, accepted: bool)
      requires groups == [] && (accepted ==> Accepts(text))
      modifies this
      ensures groups == []
      ensures Now() == if accepted then Renamed(old(Now()), target, Trimmed(text)) else old(Now())
    {
      hide Extracted, Loaded, Purged;
      if !mainWindow || !accepted {
        return;
      }
      var newName := Trimmed(text);
      if target == current {
        SetName(newName);
        current := newName;
      } else {
        var settings := Extract(target);
        PurgeGroup(target);
        WriteGroup(newName, settings);
      }
    }

    // Removes a configuration other than the current, if that is confirmed.
    method DeleteConfiguration(target: string, confirmed: bool)
      requires groups == []
      modifies this
      ensures groups == [] && Now() == if confirmed then Deleted(old(Now()), target) else old(Now())
    {
      hide Purged;
      if target == current || !mainWindow || !confirmed {
        return;
      }
      PurgeGroup(target);
    }

    // Values common to all configurations.
    method SetCommonValue(key: string, value: Variant)
      requires groups == []
      modifies `store, `groups
      ensures groups == [] && Now() == Shared(old(Now()), key, value)
    {
      groups := groups + [ROOT];
      PrefixOfTwo("");
      if key != "" {
        store := store[Prefix(groups) + key := value];
      }
      groups := [];
    }

    method RemoveCommonValue(key: string)
      requires groups == []
      modifies `store, `groups
      ensures groups == [] && Now() == Unshared(old(Now()), key)
    {
      hide Removed;
      if key == "" {
        return;
      }
      groups := groups + [ROOT];
      PrefixOfTwo("");
      Remove(key);
      groups := [];
    }
  }

  // A key goes once it, or one that it is under, is found without the reserved name.
  ghost predicate Goes(done: set<string>, k: string) {
    exists key <- done :: !Contains(key, ROOT) && Under(key, k)
  }

  ghost function Lasting(store: Dictionary, done: set<string>): Dictionary {
    map k | k in store && !Goes(done, k) :: store[k]
  }

  lemma LastingOneMore(store: Dictionary, done: set<string>, key: string)
    ensures var s := Lasting(store, done);
            Lasting(store, done + {key}) == if Contains(key, ROOT) then s else Removed(s, key)
  {
    hide Contains, Under;
    assert forall k: string :: Goes(done + {key}, k) <==> Goes(done, k) || (!Contains(key, ROOT) && Under(key, k));
  }

  lemma GoesNone()
    ensures forall store: Dictionary :: Lasting(store, {}) == store
  {
  }

  lemma UnlivedGoes(store: Dictionary)
    ensures Lasting(store, store.Keys) == Unlived(store)
  {
    hide Contains;
    forall k <- store
      ensures Goes(store.Keys, k) <==> !Contains(k, ROOT) || UnderLive(store, k)
    {
    }
  }

  lemma PrefixedOneMore(store: Dictionary, prefix: string, d: Dictionary, keys: set<string>, key: string)
    requires key in keys && keys <= d.Keys
    ensures (store + Prefixed(prefix, d - keys))[prefix + key := d[key]] == store + Prefixed(prefix, d - (keys - {key}))
  {
    hide Prefixed;
    forall k: string
      ensures k in Prefixed(prefix, d - (keys - {key})) <==> k in Prefixed(prefix, d - keys) || k == prefix + key
      ensures k in Prefixed(prefix, d - keys)
              ==> Prefixed(prefix, d - (keys - {key}))[k] == Prefixed(prefix, d - keys)[k]
      ensures k == prefix + key
              ==> k in Prefixed(prefix, d - (keys - {key})) && Prefixed(prefix, d - (keys - {key}))[k] == d[key]
    {
      PrefixedIs(prefix, d - keys, k);
      PrefixedIs(prefix, d - (keys - {key}), k);
      assert (prefix + key)[|prefix|..] == key;
      if prefix <= k && k[|prefix|..] == key {
        assert k == prefix + key;
      }
    }
  }

  lemma PrefixedNone(prefix: string)
    ensures Prefixed(prefix, map[]) == map[]
  {
  }

  lemma PrefixedOne(prefix: string, key: string, value: Variant)
    ensures Prefixed(prefix, map[key := value]) == map[prefix + key := value]
  {
    forall k: string
      ensures k in Prefixed(prefix, map[key := value]) <==> k == prefix + key
    {
      PrefixedIs(prefix, map[key := value], k);
      assert (prefix + key)[|prefix|..] == key;
      if prefix <= k && k[|prefix|..] == key {
        assert k == prefix + key;
      }
    }
  }

  lemma KeysAreBehind(store: Dictionary, prefix: string)
    ensures forall key <- (set k | k in store && prefix <= k :: k[|prefix|..]) :: prefix + key in store
  {
    forall k <- store | prefix <= k
      ensures prefix + k[|prefix|..] == k
    {
    }
  }
}
