/** How a store is opened, and what is lost where a name was not clear. */
module ConfigurationEdges {
  import opened Configurations
  import opened StoredConfigurations
  import opened SettingsEffects
  import opened SettingsStore

  /* Opening a store */

  ghost function Found(store: Dictionary): Configs {
    Configs(StartName(store), StartName(store), LiveOf(store), AlternativesOf(store),
            CommonOf(store) - {CommonKey(CURRENT_NAME)}, Unchanged)
  }

  // A configuration that exists may be asked for at the start.
  function Opened(c: Configs, name: string): Configs {
    if name != "" then Configurations.Reposition(Select(c, name)) else c
  }

  lemma ObsoleteIsNoUserKey(store: Dictionary)
    requires ValidStore(store)
    ensures forall k <- store :: !Under(OBSOLETE, k)
  {
    hide Contains;
    forall k <- store | Under(OBSOLETE, k)
      ensures false
    {
      assert ValidKey(k);
      ContainsRoot(k);
    }
  }

  lemma ContainsRoot(k: string)
    requires OBSOLETE <= k
    ensures Contains(k, ROOT) && PlaceOf(k).Live?
  {
    var before := "Current";
    assert before + ROOT <= OBSOLETE;
    assert k[..|before + ROOT|] == before + ROOT;
    assert k[|before|..|before| + |ROOT|] == ROOT;
    assert LiesAt(ROOT, k, |before|);
    assert k[0] == before[0] && before[0] != ROOT[0];
  }

  // The configuration used last, or the default one, is open, and the store is in order exactly if no other
  // configuration has its name.
  lemma StartedIs(initial: Dictionary)
    requires ValidStore(initial)
    ensures View(Started(initial, "")) == Found(initial)
    ensures Valid(Started(initial, ""))
            <==> Name(StartName(initial)) && StartName(initial) !in Found(initial).alternatives
  {
    hide GroupOf, NamesOf, PlaceOf, Contains, LiveOf, CommonOf, AlternativesOf, ValidStore, CommonKey, Name, Named;
    ObsoleteIsNoUserKey(initial);
    NamedView(Machine(initial, DEFAULT, map[], Unaltered, true, false), DEFAULT);
  }

  // Asking for another is a switch to it, exactly if no common value bears its name.
  lemma StartedWithIs(initial: Dictionary, name: string)
    requires ValidStore(initial) && Settled(Found(initial)) && Name(StartName(initial))
    ensures Valid(Started(initial, name))
    ensures var (c, d) := (Found(initial), Opened(Found(initial), name));
            View(Started(initial, name)) == d <==> d.current == c.current || Unshadowed(c, name)
  {
    hide GroupOf, NamesOf, PlaceOf, Contains, LiveOf, CommonOf, AlternativesOf, ValidStore, CommonKey, Name, Named,
         Swapped, Saved, Extracted;
    StartedIs(initial);
    ObsoleteIsNoUserKey(initial);
    AlternativesAreNamed(initial);
    var n := Started(initial, "").(mainWindow := true);
    AlternativesAreNamed(n.store);
    SelectedIs(n, name);
    if name != "" && name in NamesOf(initial) && name != n.current {
      RepositionedIs(Selected(n, name));
      assert Started(initial, name) == Repositioned(Selected(n, name));
    }
  }

  // The key of earlier versions names the group of the configuration in use. Opening such a store makes it live,
  // after the live settings have been added to the default configuration.
  lemma ObsoleteIsConverted(store: Dictionary, name: string)
    requires ValidStore(store) && Name(name)
    ensures var c := Found(store);
            var d := if name in c.alternatives then c.alternatives[name] else map[];
            View(Started(store[OBSOLETE := Text(name)], ""))
            == WithoutName(Merged(c, DEFAULT, c.live), name).(current := name, stored := name, live := d)
  {
    hide GroupOf, NamesOf, PlaceOf, Contains, LiveOf, CommonOf, AlternativesOf, ValidStore, CommonKey, Swapped, Saved,
         Extracted, Name;
    var s := Named(store, DEFAULT);
    var d := Extracted(store, Prefix([ROOT, name]));
    var n := Machine(s, name, d, SavingAndReplacing, true, false);
    NameHasNoSlash();
    AlternativesAreNamed(store);
    NamedView(n.(store := store), DEFAULT);
    ReadInGroup(store, name);
    if name in NamesOf(store) {
      AlternativeIs(store, name);
    }
    SavedView(n);
    SwappedView(n.(store := Saved(s)), d);
    NameIsSome(name);
    ConvertedIs(store, name);
  }

  // It is a switch from the default name exactly if nothing of a default configuration is kept, and no common value
  // bears the name.
  lemma ObsoleteIsSwitch(store: Dictionary, name: string)
    requires ValidStore(store) && Name(name)
    ensures var c := Found(store);
            var d := if name in c.alternatives then c.alternatives[name] else map[];
            var switched := SwapIn(c.(current := name, alternatives := c.alternatives[DEFAULT := c.live]), d);
            View(Started(store[OBSOLETE := Text(name)], "")) == switched
            <==> && Unshadowed(c, name)
                 && (name == DEFAULT || DEFAULT !in c.alternatives || c.alternatives[DEFAULT].Keys <= c.live.Keys)
  {
    hide LiveOf, CommonOf, AlternativesOf, NamesOf, CommonKey, Started, Name, ValidStore;
    ObsoleteIsConverted(store, name);
    var c := Found(store);
    var kept := if DEFAULT in c.alternatives then c.alternatives[DEFAULT] else map[];
    assert c.common - {CommonKey(name)} == c.common <==> CommonKey(name) !in c.common;
    Covered(kept, c.live);
    SameBut(c.alternatives, DEFAULT, kept + c.live, c.live, name);
  }

  lemma Covered(kept: Dictionary, live: Dictionary)
    ensures kept + live == live <==> kept.Keys <= live.Keys
  {
    assert kept.Keys <= (kept + live).Keys;
  }

  lemma SameBut(alternatives: map<string, Dictionary>, key: string, d: Dictionary, e: Dictionary, name: string)
    ensures alternatives[key := d] - {name} == alternatives[key := e] - {name} <==> key == name || d == e
  {
    var a, b := alternatives[key := d] - {name}, alternatives[key := e] - {name};
    if key != name {
      assert a[key] == d && b[key] == e;
    } else {
      assert a == b;
    }
  }

  lemma ConvertedIs(store: Dictionary, name: string)
    requires ValidStore(store) && name != ""
    ensures var s := Named(store, DEFAULT);
            var d := Extracted(store, Prefix([ROOT, name]));
            Converted(store[OBSOLETE := Text(name)])
            == Repositioned(Machine(s, name, d, SavingAndReplacing, true, false)).store
  {
    hide Repositioned, Extracted, Named, ValidStore;
    ObsoleteIsNoUserKey(store);
    assert Removed(store[OBSOLETE := Text(name)], OBSOLETE) == store;
  }

  /* The name of the stored name, given to a configuration and deleted with it */

  lemma DeletedName(m: Machine)
    requires Ready(m) && CURRENT_NAME in View(m).alternatives
    ensures var n := Perform(m, Deleting(CURRENT_NAME));
            && ValidStore(n.store) && UserKeys(n.newSettings) && n.mainWindow && n.repositionType == Unaltered
            && CommonKey(CURRENT_NAME) !in n.store
            && View(n) == View(m).(stored := "", alternatives := View(m).alternatives - {CURRENT_NAME})
  {
    hide GroupOf, NamesOf, PlaceOf, Contains, LiveOf, CommonOf, AlternativesOf, ValidStore, CommonKey, Name, Purged;
    NameHasNoSlash();
    PurgedView(m, CURRENT_NAME);
    var r := Deleted(m, CURRENT_NAME);
    UnalteredStays(r);
    NameIsCommon(r.store);
    PurgeEffect(m.store, CURRENT_NAME);
    assert View(m).common - {CommonKey(CURRENT_NAME)} == View(m).common;
  }

  // After the configuration called CurrentName is deleted, switching to another drops the name of the one
  // that was current: its settings go to the default configuration, and are lost if that is the target.
  lemma StoredNameIsLost(m: Machine, target: string, live: Dictionary)
    requires Ready(m) && CURRENT_NAME in View(m).alternatives && UserKeys(live)
    requires target in View(m).alternatives && target != CURRENT_NAME
    ensures var (c, d) := (View(m), View(RunOf(m, [Deleting(CURRENT_NAME), Switching(target, live)])));
            && d.current == target
            && All(d).Keys == All(c).Keys - {CURRENT_NAME, c.current} + {DEFAULT}
            && (target == DEFAULT ==> All(d) == All(c) - {CURRENT_NAME, c.current})
  {
    hide GroupOf, NamesOf, PlaceOf, Contains, LiveOf, CommonOf, AlternativesOf, ValidStore, CommonKey, Name, Purged,
         Selected, Relived, UserKeys, Swapped, Saved, Perform;
    DeletedName(m);
    var n := Perform(m, Deleting(CURRENT_NAME));
    LostAtSwitch(n, target, live);
    var ops := [Deleting(CURRENT_NAME), Switching(target, live)];
    assert ops[1..] == [Switching(target, live)] && ops[1..][1..] == [];
    assert RunOf(m, ops) == Perform(n, Switching(target, live)) by {
      assert RunOf(m, ops) == RunOf(n, ops[1..]);
    }
  }

  lemma NameNotAdded(store: Dictionary, live: Dictionary)
    requires ValidStore(store) && UserKeys(live)
    ensures CommonKey(CURRENT_NAME) in Relived(store, live) <==> CommonKey(CURRENT_NAME) in store
  {
    hide PlaceOf, CommonOf, AlternativesOf, LiveOf, ValidStore, UserKeys, Relived;
    RelivedEffect(store, live);
    NameIsCommon(store);
    NameIsCommon(Relived(store, live));
  }

  lemma LostAtSwitch(n: Machine, target: string, live: Dictionary)
    requires ValidStore(n.store) && UserKeys(n.newSettings) && n.mainWindow && UserKeys(live)
    requires CommonKey(CURRENT_NAME) !in n.store && target in View(n).alternatives && target != n.current
    ensures var (c, d) := (View(n), View(Perform(n, Switching(target, live))));
            && d.current == target && d.live == c.alternatives[target]
            && d.alternatives == Merged(c, DEFAULT, live).alternatives - {target}
  {
    hide GroupOf, NamesOf, PlaceOf, Contains, LiveOf, CommonOf, AlternativesOf, ValidStore, CommonKey, Name,
         Selected, Relived, UserKeys, Swapped, Saved;
    SelectedIs(n, target);
    SelectedHolds(n, target);
    AlternativesAreNamed(n.store);
    NamesAreNames(n.store);
    var a := Selected(n, target);
    RelivedView(a, live);
    var b := Worked(a, live);
    NameNotAdded(a.store, live);
    NameHasNoSlash();
    SavedView(b);
    SwappedView(b.(store := Saved(b.store)), b.newSettings);
  }

  // A store in which that happens.
  ghost function Sample(): Machine {
    var store := map[
      "Filter" := Other(1),
      CommonKey(CURRENT_NAME) := Text("Work"),
      GroupPrefix(DEFAULT) + "Filter" := Other(2),
      GroupPrefix(CURRENT_NAME) + "Filter" := Other(3)
    ];
    Machine(store, "Work", map[], Unaltered, true, true)
  }

  lemma SampleIsReady()
    ensures Ready(Sample())
    ensures var c := View(Sample());
            c.current == "Work" && c.live == map["Filter" := Other(1)] && c.alternatives.Keys == {DEFAULT, CURRENT_NAME}
  {
    hide PlaceOf, CommonKey, Contains, GroupPrefix, UserKey;
    var store := Sample().store;
    NameHasNoSlash();
    FilterIsUserKey();
    PlaceOfUserKey("Filter");
    PlaceOfCommonKey(CURRENT_NAME);
    PlaceOfGroupKey(DEFAULT, "Filter");
    PlaceOfGroupKey(CURRENT_NAME, "Filter");
    assert LiveOf(store) == map["Filter" := Other(1)];
    assert NamesOf(store) == {DEFAULT, CURRENT_NAME} by {
      assert GroupPrefix(DEFAULT) + "Filter" in store;
      assert GroupPrefix(CURRENT_NAME) + "Filter" in store;
    }
    assert NameIn(store) == "Work";
  }

  lemma FilterIsUserKey()
    ensures UserKey("Filter")
  {
  }

  lemma WorkIsLost(live: Dictionary)
    requires UserKeys(live)
    ensures var d := View(RunOf(Sample(), [Deleting(CURRENT_NAME), Switching(DEFAULT, live)]));
            "Work" !in All(d)
  {
    hide Ready, UserKeys, View, RunOf;
    SampleIsReady();
    StoredNameIsLost(Sample(), DEFAULT, live);
  }

  /* A name of blanks */

  // The dialog yields no name for exactly the texts of blanks.
  lemma {:induction false} TrimmedToNothing(s: string)
    ensures Trimmed(s) == "" <==> forall c <- s :: Space(c)
  {
    hide Space;
    if s != "" && Space(s[0]) {
      assert s == [s[0]] + s[1..];
      TrimmedToNothing(s[1..]);
    } else if s != "" && Space(s[|s| - 1]) {
      assert s == s[..|s| - 1] + [s[|s| - 1]];
      TrimmedToNothing(s[..|s| - 1]);
    }
  }

  function PlaceInRoot(key: string): Place {
    var i := Slash(key);
    if i == |key| then Common(key) else Alternative(key[..i], key[i + 1..])
  }

  // An alternative so renamed is scattered in the root group: every setting without a slash becomes a common
  // value, and any other a setting of the configuration named by its first part.
  lemma BlankScatters(m: Machine, target: string)
    requires Ready(m) && target in View(m).alternatives
    ensures var (c, r) := (View(m), Renamed(m, target, ""));
            && "" !in View(r).alternatives
            && forall k <- c.alternatives[target] ::
                 && CommonKey(k) in r.store && r.store[CommonKey(k)] == c.alternatives[target][k]
                 && PlaceOf(CommonKey(k)) == PlaceInRoot(k)
  {
    hide GroupOf, NamesOf, PlaceOf, PlaceInRoot, Contains, LiveOf, CommonOf, AlternativesOf, ValidStore, Name, Purged,
         Extracted, Loaded, CommonKey, UserKeys;
    AlternativesAreNamed(m.store);
    NamesAreNames(m.store);
    AlternativeIs(m.store, target);
    ReadInGroup(m.store, target);
    PurgeEffect(m.store, target);
    var d, s := GroupOf(m.store, target), Purged(m.store, [ROOT, target]);
    NoBlankName(s, d);
    AlternativesAreNamed(Loaded(s, "", d));
    forall k <- d
      ensures CommonKey(k) in Loaded(s, "", d) && Loaded(s, "", d)[CommonKey(k)] == d[k]
      ensures PlaceOf(CommonKey(k)) == PlaceInRoot(k)
    {
      LandsInRoot(s, d, k);
    }
  }

  lemma LandsInRoot(s: Dictionary, d: Dictionary, k: string)
    requires k in d
    ensures CommonKey(k) in Loaded(s, "", d) && Loaded(s, "", d)[CommonKey(k)] == d[k]
    ensures PlaceOf(CommonKey(k)) == PlaceInRoot(k)
  {
    hide Prefixed;
    PrefixOfTwo("");
    PrefixedIs(ROOT + "/", Kept(d), CommonKey(k));
    assert CommonKey(k)[|ROOT| + 1..] == k;
  }

  lemma NoBlankName(s: Dictionary, d: Dictionary)
    requires ValidStore(s) && UserKeys(d)
    ensures "" !in NamesOf(Loaded(s, "", d))
  {
    hide Prefixed;
    var t := Loaded(s, "", d);
    PrefixOfTwo("");
    forall k <- t
      ensures PlaceOf(k).Alternative? ==> PlaceOf(k).name != ""
    {
      PrefixedIs(ROOT + "/", Kept(d), k);
      if k in s {
        assert ValidKey(k);
      }
      if k !in s {
        var key := k[|ROOT| + 1..];
        assert key in Kept(d) && key != "" && key[0] != '/';
      }
    }
  }

  // The current configuration can be so renamed; resetting it then erases every other configuration and all
  // that is common.
  lemma ResetOfBlankErasesAll(m: Machine)
    requires Ready(m)
    ensures var r := View(RunOf(m, [Renaming(m.current, ""), Resetting("")]));
            r.current == r.stored == "" && r.live == map[] && r.alternatives == map[] && r.common == map[]
  {
    hide GroupOf, NamesOf, PlaceOf, Contains, LiveOf, CommonOf, AlternativesOf, ValidStore, CommonKey, Named, Purged;
    var n := Perform(m, Renaming(m.current, ""));
    NamedView(m, "");
    var ops := [Renaming(m.current, ""), Resetting("")];
    assert ops[1..] == [Resetting("")] && ops[1..][1..] == [];
    assert RunOf(m, ops) == Perform(n, Resetting("")) by {
      assert RunOf(m, ops) == RunOf(n, ops[1..]);
    }
    UnlivedIs(n.store, map[]);
    RelivedEffect(n.store, map[]);
    var s := Relived(n.store, map[]);
    PurgeOfAll(s);
    var t := Purged(s, [ROOT, ""]);
    NamedView(Machine(t, "", map[], Unaltered, true, true), "");
  }
}
