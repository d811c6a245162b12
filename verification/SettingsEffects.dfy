/** What writing to the flat store does to the configurations in it. */
module SettingsEffects {
  import opened SettingsStore

  // Keys put under a prefix.
  function Prefixed(prefix: string, d: Dictionary): Dictionary {
    map k | k in (set key | key in d :: prefix + key) :: d[k[|prefix|..]]
  }

  lemma PrefixedIs(prefix: string, d: Dictionary, k: string)
    ensures k in Prefixed(prefix, d) <==> prefix <= k && k[|prefix|..] in d
    ensures k in Prefixed(prefix, d) ==> Prefixed(prefix, d)[k] == d[k[|prefix|..]]
  {
    if prefix <= k && k[|prefix|..] in d {
      assert prefix + k[|prefix|..] == k;
    }
    if key :| key in d && prefix + key == k {
      assert k[|prefix|..] == key;
    }
  }

  // A key and everything under it.
  predicate Under(key: string, k: string) {
    k == key || key + "/" <= k
  }

  function Removed(store: Dictionary, key: string): Dictionary {
    map k | k in store && !Under(key, k) :: store[k]
  }

  // What is left when the empty key is removed with groups open: the key that bears the name of the
  // group goes with everything in it, and everything if there is no group.
  function Purged(store: Dictionary, groups: seq<string>): Dictionary {
    if Group(groups) == "" then map[] else Removed(store, Group(groups))
  }

  function Without(store: Dictionary, prefix: string): Dictionary {
    map k | k in store && !(prefix <= k) :: store[k]
  }

  // A configuration as it is kept in its group: never empty.
  function Kept(d: Dictionary): Dictionary {
    if d == map[] then map[PLACEHOLDER := Nothing] else d
  }

  // Two stores that agree on the places of one kind.
  ghost predicate AgreeOutside(s: Dictionary, t: Dictionary, prefix: string) {
    forall k: string | !(prefix <= k) :: (k in s <==> k in t) && (k in s ==> s[k] == t[k])
  }

  // Changes inside one group are not seen outside it.
  lemma OthersUnchanged(s: Dictionary, t: Dictionary, name: string)
    requires Name(name) && AgreeOutside(s, t, GroupPrefix(name))
    ensures LiveOf(s) == LiveOf(t) && CommonOf(s) == CommonOf(t)
    ensures NamesOf(s) - {name} == NamesOf(t) - {name}
    ensures forall other | other != name && Name(other) :: GroupOf(s, other) == GroupOf(t, other)
  {
    hide PlaceOf;
    forall k: string
      ensures GroupPrefix(name) <= k <==> (PlaceOf(k).Alternative? && PlaceOf(k).name == name)
    {
      PlaceInGroup(name, k);
    }
    forall other | other != name && Name(other)
      ensures GroupOf(s, other) == GroupOf(t, other)
    {
      SameGroup(s, t, name, other);
    }
    SameNames(s, t, name);
    SameNames(t, s, name);
  }

  lemma SameNames(s: Dictionary, t: Dictionary, name: string)
    requires Name(name) && AgreeOutside(s, t, GroupPrefix(name))
    ensures NamesOf(s) - {name} <= NamesOf(t)
  {
    hide PlaceOf;
    forall other <- NamesOf(s) - {name}
      ensures other in NamesOf(t)
    {
      var k :| k in s && PlaceOf(k).Alternative? && PlaceOf(k).name == other;
      PlaceInGroup(name, k);
      assert k in t;
    }
  }

  lemma SameGroup(s: Dictionary, t: Dictionary, name: string, other: string)
    requires Name(name) && Name(other) && other != name && AgreeOutside(s, t, GroupPrefix(name))
    ensures GroupOf(s, other) == GroupOf(t, other)
  {
    forall key: string
      ensures key in GroupOf(s, other) <==> key in GroupOf(t, other)
      ensures key in GroupOf(s, other) ==> GroupOf(s, other)[key] == GroupOf(t, other)[key]
    {
      GroupOfIs(s, other, key);
      GroupOfIs(t, other, key);
      var k := GroupPrefix(other) + key;
      PlaceInGroup(name, k);
      PlaceOfGroupKey(other, key);
      assert !(GroupPrefix(name) <= k);
    }
  }

  // Without its keys a configuration is gone.
  lemma WithoutEffect(store: Dictionary, name: string)
    requires Name(name) && ValidStore(store)
    ensures var t := Without(store, GroupPrefix(name));
            && ValidStore(t) && LiveOf(t) == LiveOf(store) && CommonOf(t) == CommonOf(store)
            && AlternativesOf(t) == AlternativesOf(store) - {name}
  {
    hide PlaceOf, GroupOf;
    var t := Without(store, GroupPrefix(name));
    OthersUnchanged(store, t, name);
    NameHasKey(t, name);
    NamesAreNames(store);
    assert NamesOf(t) == NamesOf(store) - {name};
  }

  // Purging a group removes its configuration, and the common value of its name.
  lemma PurgeEffect(store: Dictionary, name: string)
    requires Name(name) && ValidStore(store)
    ensures var t := Purged(store, [ROOT, name]);
            && ValidStore(t) && LiveOf(t) == LiveOf(store) && CommonOf(t) == CommonOf(store) - {CommonKey(name)}
            && AlternativesOf(t) == AlternativesOf(store) - {name}
  {
    hide PlaceOf, GroupOf, ValidStore, AlternativesOf, LiveOf, CommonOf, NamesOf;
    PrefixOfTwo(name);
    var s, t := Without(store, GroupPrefix(name)), Purged(store, [ROOT, name]);
    WithoutEffect(store, name);
    CommonRemoved(s, name);
    assert t == s - {CommonKey(name)} by {
      assert GroupPrefix(name) == CommonKey(name) + "/";
      assert !(GroupPrefix(name) <= CommonKey(name));
    }
  }

  // That is the removal of the configuration exactly if no key of the root group bears its name.
  lemma PurgeIsClear(store: Dictionary, name: string)
    requires Name(name) && ValidStore(store)
    ensures var t := Purged(store, [ROOT, name]);
            && LiveOf(t) == LiveOf(store) && CommonOf(t) == CommonOf(store)
            && AlternativesOf(t) == AlternativesOf(store) - {name}
            <==> CommonKey(name) !in store
  {
    hide AlternativesOf, LiveOf, PlaceOf, CommonKey;
    PurgeEffect(store, name);
    PlaceOfCommonKey(name);
    assert CommonOf(store) - {CommonKey(name)} == CommonOf(store) <==> CommonKey(name) !in CommonOf(store);
  }

  lemma CommonRemoved(store: Dictionary, key: string)
    requires ValidStore(store) && '/' !in key
    ensures var t := store - {CommonKey(key)};
            && ValidStore(t) && LiveOf(t) == LiveOf(store) && AlternativesOf(t) == AlternativesOf(store)
            && CommonOf(t) == CommonOf(store) - {CommonKey(key)}
  {
    hide PlaceOf, CommonKey;
    PlaceOfCommonKey(key);
    var t := store - {CommonKey(key)};
    assert ValidStore(t) by {
      assert forall k <- store :: ValidKey(k);
    }
    SameAlternatives(store, t);
  }

  // Purged without a name, the root group loses all that is in it.
  lemma PurgeOfAll(store: Dictionary)
    requires ValidStore(store)
    ensures var t := Purged(store, [ROOT, ""]);
            ValidStore(t) && LiveOf(t) == LiveOf(store) && CommonOf(t) == map[] && AlternativesOf(t) == map[]
  {
    hide PlaceOf, GroupOf;
    PrefixOfTwo("");
    var t := Purged(store, [ROOT, ""]);
    forall k <- store
      ensures PlaceOf(k).Live? <==> !Under(ROOT, k)
    {
      assert ValidKey(k);
      LiveIsItself(k);
      RootIsUnder(k);
    }
    assert ValidStore(t) by {
      assert forall k <- store :: ValidKey(k);
    }
    assert NamesOf(t) == {};
  }

  lemma RootIsUnder(k: string)
    requires PlaceOf(k).Live? ==> UserKey(k)
    ensures PlaceOf(k).Live? <==> !Under(ROOT, k)
  {
    if PlaceOf(k).Live? && Under(ROOT, k) {
      assert k == ROOT;
      assert LiesAt(ROOT, k, 0);
    }
  }

  function Written(store: Dictionary, name: string, d: Dictionary): Dictionary {
    store + Prefixed(GroupPrefix(name), Kept(d))
  }

  lemma WrittenIs(store: Dictionary, name: string, d: Dictionary, k: string)
    ensures var (t, prefix) := (Written(store, name, d), GroupPrefix(name));
            && (k in t <==> k in store || (prefix <= k && k[|prefix|..] in Kept(d)))
            && (k in t ==> t[k] == if prefix <= k && k[|prefix|..] in Kept(d) then Kept(d)[k[|prefix|..]] else store[k])
  {
    hide Kept, Prefixed;
    PrefixedIs(GroupPrefix(name), Kept(d), k);
  }

  // Writing settings into a group adds them to the configuration, which there then is.
  lemma WriteEffect(store: Dictionary, name: string, d: Dictionary)
    requires Name(name) && ValidStore(store) && UserKeys(d)
    ensures var t := Written(store, name, d);
            && ValidStore(t) && LiveOf(t) == LiveOf(store) && CommonOf(t) == CommonOf(store)
            && AlternativesOf(t) == AlternativesOf(store)[name := GroupOf(store, name) + d]
  {
    hide PlaceOf, GroupOf, NamesOf, AgreeOutside, Written, LiveOf, CommonOf, ValidStore;
    var t := Written(store, name, d);
    WrittenAgrees(store, name, d);
    OthersUnchanged(store, t, name);
    NameIsWritten(store, name, d);
    WrittenKeysAreValid(store, name, d);
    WrittenGroup(store, name, d);
    NamesAreNames(store);
    assert NamesOf(t) == NamesOf(store) + {name} by {
      assert NamesOf(store) - {name} == NamesOf(t) - {name};
      assert NamesOf(store) + {name} == NamesOf(store) - {name} + {name};
      assert NamesOf(t) == NamesOf(t) - {name} + {name};
    }
  }

  lemma WrittenAgrees(store: Dictionary, name: string, d: Dictionary)
    ensures AgreeOutside(store, Written(store, name, d), GroupPrefix(name))
  {
    hide Written;
    forall k: string | !(GroupPrefix(name) <= k)
      ensures k in store <==> k in Written(store, name, d)
      ensures k in store ==> store[k] == Written(store, name, d)[k]
    {
      WrittenIs(store, name, d, k);
    }
  }

  lemma NameIsWritten(store: Dictionary, name: string, d: Dictionary)
    requires Name(name)
    ensures name in NamesOf(Written(store, name, d))
  {
    hide PlaceOf, NamesOf, Written;
    assert PLACEHOLDER in Kept(map[]);
    var some :| some in Kept(d);
    var k := GroupPrefix(name) + some;
    assert k[|GroupPrefix(name)|..] == some;
    WrittenIs(store, name, d, k);
    NameHasKey(Written(store, name, d), name);
  }

  lemma WrittenGroup(store: Dictionary, name: string, d: Dictionary)
    requires UserKeys(d)
    ensures GroupOf(Written(store, name, d), name) == GroupOf(store, name) + d
  {
    hide PlaceOf, GroupOf, Written;
    assert PLACEHOLDER !in d by {
      RootIsContained(PLACEHOLDER);
    }
    var t := Written(store, name, d);
    forall key: string
      ensures key in GroupOf(t, name) <==> key in GroupOf(store, name) + d
      ensures key in GroupOf(t, name) ==> GroupOf(t, name)[key] == (GroupOf(store, name) + d)[key]
    {
      GroupOfIs(t, name, key);
      GroupOfIs(store, name, key);
      GroupValue(t, name, key);
      GroupValue(store, name, key);
      WrittenIs(store, name, d, GroupPrefix(name) + key);
      assert (GroupPrefix(name) + key)[|GroupPrefix(name)|..] == key;
    }
  }

  lemma GroupValue(t: Dictionary, name: string, key: string)
    ensures key in GroupOf(t, name)
            ==> GroupPrefix(name) + key in t && GroupOf(t, name)[key] == t[GroupPrefix(name) + key]
  {
  }

  lemma WrittenKeysAreValid(store: Dictionary, name: string, d: Dictionary)
    requires Name(name) && ValidStore(store) && UserKeys(d)
    ensures ValidStore(Written(store, name, d))
  {
    hide PlaceOf, Written;
    forall k <- Written(store, name, d)
      ensures ValidKey(k)
    {
      WrittenIs(store, name, d, k);
      if k in store {
        assert ValidKey(k);
      } else {
        PlaceInGroup(name, k);
      }
    }
  }

  // The live settings replaced by others.
  function Relived(store: Dictionary, d: Dictionary): Dictionary {
    (map k | k in store && Contains(k, ROOT) :: store[k]) + d
  }

  lemma RelivedEffect(store: Dictionary, d: Dictionary)
    requires ValidStore(store) && UserKeys(d)
    ensures var t := Relived(store, d);
            && ValidStore(t) && LiveOf(t) == d && CommonOf(t) == CommonOf(store)
            && AlternativesOf(t) == AlternativesOf(store)
  {
    hide PlaceOf, GroupOf;
    var t := Relived(store, d);
    forall k: string
      ensures k in d ==> PlaceOf(k).Live?
      ensures k in store && PlaceOf(k).Live? ==> !Contains(k, ROOT)
      ensures !PlaceOf(k).Live? ==> Contains(k, ROOT)
    {
      if k in d {
        PlaceOfUserKey(k);
      }
      if k in store {
        assert ValidKey(k);
        LiveIsItself(k);
      }
      if !PlaceOf(k).Live? {
        RootIsContained(k);
      }
    }
    forall k <- t
      ensures ValidKey(k)
    {
      if k in d {
        PlaceOfUserKey(k);
      } else {
        assert ValidKey(k);
      }
    }
    SameAlternatives(store, t);
  }

  lemma LiveIsItself(k: string)
    ensures PlaceOf(k).Live? ==> PlaceOf(k).key == k
  {
  }

  // Alternatives depend on the keys in the groups alone.
  lemma SameAlternatives(s: Dictionary, t: Dictionary)
    requires ValidStore(s) && ValidStore(t)
    requires forall k: string | PlaceOf(k).Alternative? :: (k in s <==> k in t) && (k in s ==> s[k] == t[k])
    ensures AlternativesOf(s) == AlternativesOf(t)
  {
    hide PlaceOf, GroupOf;
    NamesAreNames(s);
    assert NamesOf(s) == NamesOf(t);
    forall name <- NamesOf(s)
      ensures GroupOf(s, name) == GroupOf(t, name)
    {
      forall key: string
        ensures key in GroupOf(s, name) <==> key in GroupOf(t, name)
        ensures key in GroupOf(s, name) ==> GroupOf(s, name)[key] == GroupOf(t, name)[key]
      {
        PlaceOfGroupKey(name, key);
        GroupOfIs(s, name, key);
        GroupOfIs(t, name, key);
        GroupValue(s, name, key);
        GroupValue(t, name, key);
      }
    }
  }

  // A value in the root group itself.
  lemma CommonEffect(store: Dictionary, key: string, value: Variant)
    requires ValidStore(store) && '/' !in key
    ensures var t := store[CommonKey(key) := value];
            && ValidStore(t) && LiveOf(t) == LiveOf(store) && AlternativesOf(t) == AlternativesOf(store)
            && CommonOf(t) == CommonOf(store)[CommonKey(key) := value]
  {
    hide PlaceOf, CommonKey;
    PlaceOfCommonKey(key);
    var t := store[CommonKey(key) := value];
    assert ValidStore(t) by {
      assert forall k <- store :: ValidKey(k);
    }
    SameAlternatives(store, t);
  }
}
