/** What the program does to its flat store, whatever the store holds and whatever the names are; and exactly
    when that is what should happen to named configurations. */
module StoredConfigurations {
  import opened Configurations
  import opened SettingsEffects
  import opened SettingsStore

  datatype RepositionType = Unaltered | Replacing | SavingAndReplacing

  datatype Machine = Machine(
    store: Dictionary,
    current: string,
    newSettings: Dictionary,
    repositionType: RepositionType,
    exitFlag: bool,
    mainWindow: bool)

  const DEFAULT := "Default"

  // A key of earlier versions, at the root.
  const OBSOLETE := "Current" + ROOT + "Configuration"

  /* Reading and writing */

  // What is read from under a prefix: neither the root group nor the place-holder.
  ghost function Extracted(store: Dictionary, prefix: string): Dictionary {
    map key | key in (set k | k in store && prefix <= k :: k[|prefix|..]) && Extracts(store, prefix, key) ::
      store[prefix + key]
  }

  ghost predicate Extracts(store: Dictionary, prefix: string, key: string) {
    prefix + key in store && !Contains(key, ROOT) && !Contains(key, PLACEHOLDER)
  }

  lemma ExtractedIs(store: Dictionary, prefix: string, key: string)
    ensures key in Extracted(store, prefix) <==> Extracts(store, prefix, key)
    ensures key in Extracted(store, prefix)
            ==> prefix + key in store && Extracted(store, prefix)[key] == store[prefix + key]
  {
    if Extracts(store, prefix, key) {
      var k := prefix + key;
      assert k in store && prefix <= k && k[|prefix|..] == key;
    }
  }

  lemma PlaceHolderHoldsRoot(key: string)
    ensures Contains(key, PLACEHOLDER) ==> Contains(key, ROOT)
  {
    if Contains(key, PLACEHOLDER) {
      var i: nat :| i <= |key| && LiesAt(PLACEHOLDER, key, i);
      assert PLACEHOLDER[..|ROOT|] == ROOT;
      assert key[i..i + |PLACEHOLDER|][..|ROOT|] == key[i..i + |ROOT|];
      assert LiesAt(ROOT, key, i);
    }
  }

  // At the root that is the live configuration,
  lemma ExtractedAtRoot(store: Dictionary)
    requires ValidStore(store)
    ensures Extracted(store, "") == LiveOf(store)
  {
    hide PlaceOf, Contains, Extracted;
    forall key: string
      ensures key in Extracted(store, "") <==> key in LiveOf(store)
      ensures key in Extracted(store, "") ==> Extracted(store, "")[key] == store[key]
    {
      ExtractedIs(store, "", key);
      PlaceHolderHoldsRoot(key);
      assert "" + key == key;
      if key in store {
        assert ValidKey(key);
        LiveIsItself(key);
        if !PlaceOf(key).Live? {
          RootIsContained(key);
        }
      }
    }
  }

  // and in a group the configuration of that name.
  lemma ExtractedInGroup(store: Dictionary, name: string)
    requires ValidStore(store) && Name(name)
    ensures Extracted(store, GroupPrefix(name)) == GroupOf(store, name)
  {
    hide PlaceOf, Contains, Extracted, GroupOf;
    var prefix := GroupPrefix(name);
    forall key: string
      ensures key in Extracted(store, prefix) <==> key in GroupOf(store, name)
      ensures key in Extracted(store, prefix) ==> Extracted(store, prefix)[key] == GroupOf(store, name)[key]
    {
      ExtractedIs(store, prefix, key);
      GroupOfIs(store, name, key);
      GroupValue(store, name, key);
      PlaceHolderHoldsRoot(key);
      PlaceOfGroupKey(name, key);
      if prefix + key in store {
        assert ValidKey(prefix + key);
        if key == PLACEHOLDER {
          RootIsContained(key);
        }
      }
    }
  }

  function TextIn(store: Dictionary, key: string): string {
    if key in store && store[key].Text? then store[key].s else ""
  }

  // The name of the current configuration, as stored.
  function NameIn(store: Dictionary): string {
    TextIn(store, CommonKey(CURRENT_NAME))
  }

  // The name under which the live settings are saved.
  function PreviousName(store: Dictionary): string {
    if CommonKey(CURRENT_NAME) in store then NameIn(store) else DEFAULT
  }

  function Named(store: Dictionary, name: string): Dictionary {
    store[CommonKey(CURRENT_NAME) := Text(name)]
  }

  function Loaded(store: Dictionary, name: string, d: Dictionary): Dictionary {
    store + Prefixed(Prefix([ROOT, name]), Kept(d))
  }

  function Overwritten(store: Dictionary, target: string, d: Dictionary): Dictionary {
    Loaded(Purged(store, [ROOT, target]), target, d)
  }

  ghost function SettingsFor(store: Dictionary, current: string, name: string): Dictionary {
    Extracted(store, if name == current then "" else Prefix([ROOT, name]))
  }

  // Without the keys that are free of the reserved name, and what is under them.
  ghost function Unlived(store: Dictionary): Dictionary {
    map k | k in store && Contains(k, ROOT) && !UnderLive(store, k) :: store[k]
  }

  ghost predicate UnderLive(store: Dictionary, k: string) {
    exists key <- store :: !Contains(key, ROOT) && key + "/" <= k
  }

  // The live settings replaced by those of the configuration that is now current.
  ghost function Swapped(store: Dictionary, d: Dictionary, current: string): Dictionary {
    Named(Purged(Unlived(store) + d, [ROOT, current]), current)
  }

  /* Operations */

  ghost function Repositioned(m: Machine): Machine {
    m.(store :=
         match m.repositionType
         case Unaltered => m.store
         case Replacing => Swapped(m.store, m.newSettings, m.current)
         case SavingAndReplacing => Swapped(Saved(m.store), m.newSettings, m.current),
       newSettings := map[], repositionType := Unaltered, exitFlag := true)
  }

  ghost function Saved(store: Dictionary): Dictionary {
    Loaded(store, PreviousName(store), Extracted(store, ""))
  }

  function Restarted(m: Machine, how: RepositionType): Machine {
    m.(repositionType := how, exitFlag := false, mainWindow := false)
  }

  ghost function Selected(m: Machine, target: string): Machine {
    if m.mainWindow && target != m.current && target in NamesOf(m.store) then
      Restarted(m.(current := target, newSettings := Extracted(m.store, Prefix([ROOT, target]))), SavingAndReplacing)
    else m
  }

  ghost function Cloned(m: Machine, source: string, name: string): Machine {
    m.(store := Loaded(m.store, name, SettingsFor(m.store, m.current, source)))
  }

  ghost function ClonedInto(m: Machine, target: string, source: string): Machine {
    var d := SettingsFor(m.store, NameIn(m.store), source);
    if !m.mainWindow then m
    else if target == m.current then Restarted(m.(newSettings := d), Replacing)
    else m.(store := Overwritten(m.store, target, d), newSettings := map[])
  }

  function Cleared(m: Machine, target: string): Machine {
    if !m.mainWindow then m
    else if target == m.current then Restarted(m.(newSettings := map[]), Replacing)
    else m.(store := Overwritten(m.store, target, map[]))
  }

  ghost function Renamed(m: Machine, target: string, name: string): Machine {
    if !m.mainWindow then m
    else if target == m.current then m.(store := Named(m.store, name), current := name)
    else m.(store := Loaded(Purged(m.store, [ROOT, target]), name, Extracted(m.store, Prefix([ROOT, target]))))
  }

  function Deleted(m: Machine, target: string): Machine {
    if !m.mainWindow || target == m.current then m else m.(store := Purged(m.store, [ROOT, target]))
  }

  // The application does what it likes with the keys that are free of the reserved name.
  ghost function Worked(m: Machine, live: Dictionary): Machine {
    m.(store := Relived(m.store, live))
  }

  function Shared(m: Machine, key: string, value: Variant): Machine {
    if key == "" then m else m.(store := m.store[CommonKey(key) := value])
  }

  function Unshared(m: Machine, key: string): Machine {
    if key == "" then m else m.(store := Removed(m.store, CommonKey(key)))
  }

  // Opens a store with the configuration used last, or the default one, or the one asked for.
  ghost function Started(initial: Dictionary, configName: string): Machine {
    var s := Converted(initial);
    var m := Machine(if NameIn(s) == "" then Named(s, DEFAULT) else s, StartName(s), map[], Unaltered, true, false);
    if configName != "" && configName in NamesOf(s) && configName != m.current then
      Repositioned(m.(current := configName, newSettings := Extracted(m.store, Prefix([ROOT, configName])),
                      repositionType := SavingAndReplacing))
    else m
  }

  function StartName(store: Dictionary): string {
    if NameIn(store) == "" then DEFAULT else NameIn(store)
  }

  // Earlier versions kept the live settings in a group like any other.
  ghost function Converted(initial: Dictionary): Dictionary {
    if OBSOLETE !in initial then initial
    else
      var name, s := TextIn(initial, OBSOLETE), Removed(initial, OBSOLETE);
      if name == "" then Named(s, DEFAULT)
      else
        var d := Extracted(s, Prefix([ROOT, name]));
        Repositioned(Machine(Named(s, DEFAULT), name, d, SavingAndReplacing, true, false)).store
  }

  // A name as the dialog takes it from its text, without the blanks around it.
  function Trimmed(s: string): (r: string) {
    if s != "" && Space(s[0]) then Trimmed(s[1..])
    else if s != "" && Space(s[|s| - 1]) then Trimmed(s[..|s| - 1])
    else s
  }

  predicate Space(c: char) {
    var u := c as int;
    || 0x09 <= u <= 0x0D || u == 0x20 || u == 0x85 || u == 0xA0 || u == 0x1680 || 0x2000 <= u <= 0x200A
    || u == 0x2028 || u == 0x2029 || u == 0x202F || u == 0x205F || u == 0x3000
  }

  /* The configurations in a store */

  ghost function View(m: Machine): Configs {
    Configs(m.current, NameIn(m.store), LiveOf(m.store), AlternativesOf(m.store),
            CommonOf(m.store) - {CommonKey(CURRENT_NAME)},
            match m.repositionType
            case Unaltered => Unchanged
            case Replacing => Replace(m.newSettings)
            case SavingAndReplacing => SaveAndReplace(m.newSettings))
  }

  // The current name is never also that of an alternative, except between choosing it and the swap.
  predicate Consistent(c: Configs) {
    && Name(c.current) && Name(c.stored)
    && match c.pending
       case Unchanged => Settled(c)
       case Replace(_) => c.stored == c.current && c.current !in c.alternatives
       case SaveAndReplace(_) => c.current in c.alternatives && c.stored !in c.alternatives && c.stored != c.current
  }

  ghost predicate Valid(m: Machine) {
    && ValidStore(m.store) && UserKeys(m.newSettings) && Consistent(View(m))
    && (m.mainWindow ==> m.repositionType == Unaltered)
    && (m.exitFlag <==> m.repositionType == Unaltered)
    && (m.repositionType == Unaltered ==> m.newSettings == map[])
  }

  /* What each step does to the view */

  // Without what a name stands for.
  function WithoutName(c: Configs, name: string): Configs {
    c.(stored := if name == CURRENT_NAME then "" else c.stored,
       alternatives := c.alternatives - {name},
       common := c.common - {CommonKey(name)})
  }

  function Merged(c: Configs, name: string, d: Dictionary): Configs {
    c.(alternatives := c.alternatives[name := (if name in c.alternatives then c.alternatives[name] else map[]) + d])
  }

  lemma NameIsCommon(store: Dictionary)
    ensures NameIn(store) == TextIn(CommonOf(store), CommonKey(CURRENT_NAME))
    ensures CommonKey(CURRENT_NAME) in store <==> CommonKey(CURRENT_NAME) in CommonOf(store)
  {
    hide PlaceOf;
    NameHasNoSlash();
    PlaceOfCommonKey(CURRENT_NAME);
  }

  lemma NameHasNoSlash()
    ensures '/' !in CURRENT_NAME && Name(CURRENT_NAME) && '/' !in DEFAULT && Name(DEFAULT)
  {
  }

  lemma PurgedView(m: Machine, name: string)
    requires ValidStore(m.store) && Name(name)
    ensures var t := Purged(m.store, [ROOT, name]);
            ValidStore(t) && View(m.(store := t)) == WithoutName(View(m), name)
  {
    hide GroupOf, NamesOf, PlaceOf, LiveOf, CommonOf, AlternativesOf, ValidStore, Purged, CommonKey;
    PurgeEffect(m.store, name);
    NameIsCommon(m.store);
    NameIsCommon(Purged(m.store, [ROOT, name]));
    if name != CURRENT_NAME {
      OtherCommonKey(name);
    }
  }

  lemma LoadedView(m: Machine, name: string, d: Dictionary)
    requires ValidStore(m.store) && Name(name) && UserKeys(d)
    ensures var t := Loaded(m.store, name, d);
            ValidStore(t) && View(m.(store := t)) == Merged(View(m), name, d)
  {
    hide GroupOf, NamesOf, PlaceOf, LiveOf, CommonOf, AlternativesOf, ValidStore, CommonKey, Kept, Prefixed, UserKeys;
    WriteEffect(m.store, name, d);
    PrefixOfTwo(name);
    NameIsCommon(m.store);
    NameIsCommon(Loaded(m.store, name, d));
    AlternativesAreNamed(m.store);
    GroupHoldsUserKeys(m.store, name);
    if name in NamesOf(m.store) {
      AlternativeIs(m.store, name);
    }
  }

  lemma NamedView(m: Machine, name: string)
    requires ValidStore(m.store)
    ensures var t := Named(m.store, name);
            ValidStore(t) && View(m.(store := t)) == View(m).(stored := name)
  {
    hide GroupOf, NamesOf, PlaceOf, LiveOf, CommonOf, AlternativesOf, ValidStore, CommonKey;
    NameHasNoSlash();
    CommonEffect(m.store, CURRENT_NAME, Text(name));
  }

  lemma RelivedView(m: Machine, d: Dictionary)
    requires ValidStore(m.store) && UserKeys(d)
    ensures var t := Relived(m.store, d);
            ValidStore(t) && View(m.(store := t)) == View(m).(live := d)
  {
    hide GroupOf, NamesOf, PlaceOf, LiveOf, CommonOf, AlternativesOf, ValidStore, CommonKey, Relived, UserKeys;
    RelivedEffect(m.store, d);
    NameIsCommon(m.store);
    NameIsCommon(Relived(m.store, d));
  }

  lemma SwappedView(m: Machine, d: Dictionary)
    requires ValidStore(m.store) && UserKeys(d) && Name(m.current)
    ensures var t := Swapped(m.store, d, m.current);
            ValidStore(t) && View(m.(store := t)) == WithoutName(View(m), m.current).(live := d, stored := m.current)
  {
    hide GroupOf, NamesOf, PlaceOf, LiveOf, CommonOf, AlternativesOf, ValidStore, CommonKey, Relived, UserKeys, Name,
         Purged, Named, Unlived;
    UnlivedIs(m.store, d);
    RelivedView(m, d);
    var a := Relived(m.store, d);
    PurgedView(m.(store := a), m.current);
    var b := Purged(a, [ROOT, m.current]);
    NamedView(m.(store := b), m.current);
  }

  lemma UnlivedIs(store: Dictionary, d: Dictionary)
    requires ValidStore(store)
    ensures Unlived(store) + d == Relived(store, d)
  {
    hide Contains;
    forall key <- store, k <- store | !Contains(key, ROOT) && key + "/" <= k
      ensures !Contains(k, ROOT)
    {
      NothingUnderLive(key, k);
    }
  }

  /* Operations on configurations. Each purge may forget what is common, and bears the name. */

  function Forgetting(c: Configs, name: string): Configs {
    c.(stored := if name == CURRENT_NAME then "" else c.stored, common := c.common - {CommonKey(name)})
  }

  lemma ForgettingIs(c: Configs, name: string)
    requires c.stored != ""
    ensures Forgetting(c, name) == c <==> name != CURRENT_NAME && Unshadowed(c, name)
  {
    assert c.common - {CommonKey(name)} == c.common <==> CommonKey(name) !in c.common;
  }

  // No common value bears the name.
  predicate Unshadowed(c: Configs, name: string) {
    CommonKey(name) !in c.common
  }

  ghost predicate Ready(m: Machine) {
    Valid(m) && m.repositionType == Unaltered && m.mainWindow
  }

  lemma SelectedIs(m: Machine, target: string)
    requires ValidStore(m.store)
    ensures Valid(m) ==> Valid(Selected(m, target))
    ensures View(Selected(m, target)) == if m.mainWindow then Select(View(m), target) else View(m)
  {
    hide GroupOf, NamesOf, PlaceOf, Contains, LiveOf, CommonOf, AlternativesOf, ValidStore, Name, CommonKey, Extracted;
    AlternativesAreNamed(m.store);
    if m.mainWindow && target != m.current && target in NamesOf(m.store) {
      NamesAreNames(m.store);
      ReadInGroup(m.store, target);
      AlternativeIs(m.store, target);
    }
  }

  lemma SelectedHolds(m: Machine, target: string)
    requires ValidStore(m.store) && UserKeys(m.newSettings)
    ensures UserKeys(Selected(m, target).newSettings) && Selected(m, target).store == m.store
  {
    hide GroupOf, NamesOf, PlaceOf, Contains, ValidStore, Name, Extracted, UserKeys;
    if target in NamesOf(m.store) {
      NamesAreNames(m.store);
      ReadInGroup(m.store, target);
    }
  }

  lemma ReadInGroup(store: Dictionary, name: string)
    requires ValidStore(store) && Name(name)
    ensures var d := Extracted(store, Prefix([ROOT, name]));
            d == GroupOf(store, name) && UserKeys(d)
    ensures name !in NamesOf(store) ==> GroupOf(store, name) == map[]
  {
    hide GroupOf, NamesOf, PlaceOf, Contains, ValidStore, CommonKey, Extracted;
    PrefixOfTwo(name);
    ExtractedInGroup(store, name);
    GroupHoldsUserKeys(store, name);
  }

  // The swap, once the windows are closed, is the one that is due, but may forget a common value.
  lemma RepositionedIs(m: Machine)
    requires Valid(m)
    ensures var (r, d) := (Repositioned(m), Configurations.Reposition(View(m)));
            && Valid(r.(mainWindow := true)) && r.repositionType == Unaltered
            && View(r) == if m.repositionType.Unaltered? then d else d.(common := d.common - {CommonKey(m.current)})
  {
    hide GroupOf, NamesOf, PlaceOf, Contains, LiveOf, CommonOf, AlternativesOf, ValidStore, CommonKey, Extracted, Name,
         Swapped, Loaded;
    AlternativesAreNamed(m.store);
    match m.repositionType
    case Unaltered =>
    case Replacing => SwappedView(m, m.newSettings);
    case SavingAndReplacing =>
      NameIsSome(NameIn(m.store));
      SavedView(m);
      MergedIntoNone(View(m), NameIn(m.store), LiveOf(m.store));
      SwappedView(m.(store := Saved(m.store)), m.newSettings);
  }

  lemma MergedIntoNone(c: Configs, name: string, d: Dictionary)
    requires name !in c.alternatives
    ensures Merged(c, name, d) == c.(alternatives := c.alternatives[name := d])
  {
    assert map[] + d == d;
  }

  // The live settings are added to the configuration of the stored name, or the default one if none is stored.
  lemma SavedView(m: Machine)
    requires ValidStore(m.store) && Name(PreviousName(m.store))
    ensures var t := Saved(m.store);
            ValidStore(t) && View(m.(store := t)) == Merged(View(m), PreviousName(m.store), View(m).live)
  {
    hide GroupOf, NamesOf, PlaceOf, Contains, LiveOf, CommonOf, AlternativesOf, ValidStore, CommonKey, Extracted,
         Loaded;
    ExtractedAtRoot(m.store);
    LiveHasUserKeys(m.store);
    LoadedView(m, PreviousName(m.store), LiveOf(m.store));
  }

  lemma SettingsForIs(m: Machine, name: string)
    requires Valid(m) && m.repositionType == Unaltered && Name(name)
    ensures var d := SettingsFor(m.store, m.current, name);
            d == SettingsOf(View(m), name) && UserKeys(d) && NameIn(m.store) == m.current
  {
    hide GroupOf, NamesOf, PlaceOf, Contains, LiveOf, CommonOf, AlternativesOf, ValidStore, CommonKey, Extracted, Name;
    AlternativesAreNamed(m.store);
    ExtractedAtRoot(m.store);
    LiveHasUserKeys(m.store);
    ReadInGroup(m.store, name);
    if name in NamesOf(m.store) {
      AlternativeIs(m.store, name);
    }
  }

  lemma ClonedIs(m: Machine, source: string, name: string)
    requires Valid(m) && m.repositionType == Unaltered && Name(source) && Name(name) && name !in All(View(m))
    ensures var r := Cloned(m, source, name); Valid(r) && View(r) == Clone(View(m), source, name)
  {
    hide GroupOf, NamesOf, PlaceOf, Contains, LiveOf, CommonOf, AlternativesOf, ValidStore, CommonKey, Extracted, Name,
         SettingsFor, Loaded;
    SettingsForIs(m, source);
    LoadedView(m, name, SettingsFor(m.store, m.current, source));
    MergedIntoNone(View(m), name, SettingsFor(m.store, m.current, source));
  }

  lemma OverwrittenView(m: Machine, target: string, d: Dictionary)
    requires ValidStore(m.store) && Name(target) && UserKeys(d)
    ensures var (c, t) := (View(m), Overwritten(m.store, target, d));
            && ValidStore(t)
            && View(m.(store := t)) == Forgetting(c.(alternatives := c.alternatives[target := d]), target)
  {
    hide GroupOf, NamesOf, PlaceOf, Contains, LiveOf, CommonOf, AlternativesOf, ValidStore, CommonKey, Extracted, Name,
         Loaded, Purged;
    PurgedView(m, target);
    var n := m.(store := Purged(m.store, [ROOT, target]));
    LoadedView(n, target, d);
    MergedIntoNone(View(n), target, d);
    assert (View(m).alternatives - {target})[target := d] == View(m).alternatives[target := d];
  }

  lemma ClonedIntoIs(m: Machine, target: string, source: string)
    requires Ready(m) && Name(target) && Name(source)
    ensures var (r, d) := (ClonedInto(m, target, source), CloneInto(View(m), target, source));
            && ValidStore(r.store) && UserKeys(r.newSettings) && (target == m.current ==> Valid(r))
            && r.repositionType == (if target == m.current then Replacing else Unaltered)
            && View(r) == if target == m.current then d else Forgetting(d, target)
  {
    hide GroupOf, NamesOf, PlaceOf, Contains, LiveOf, CommonOf, AlternativesOf, ValidStore, CommonKey, Extracted, Name,
         SettingsFor, Overwritten;
    SettingsForIs(m, source);
    if target != m.current {
      OverwrittenView(m, target, SettingsFor(m.store, m.current, source));
    }
  }

  lemma ClearedIs(m: Machine, target: string)
    requires Ready(m) && Name(target)
    ensures var (r, d) := (Cleared(m, target), Reset(View(m), target));
            && ValidStore(r.store) && UserKeys(r.newSettings) && (target == m.current ==> Valid(r))
            && r.repositionType == (if target == m.current then Replacing else Unaltered)
            && View(r) == if target == m.current then d else Forgetting(d, target)
  {
    hide GroupOf, NamesOf, PlaceOf, Contains, LiveOf, CommonOf, AlternativesOf, ValidStore, CommonKey, Extracted, Name,
         Overwritten;
    if target != m.current {
      OverwrittenView(m, target, map[]);
    }
  }

  lemma RenamedIs(m: Machine, target: string, name: string)
    requires Ready(m) && Name(target) && name !in All(View(m)) && (target == m.current || Name(name))
    ensures var (r, d) := (Renamed(m, target, name), Rename(View(m), target, name));
            && ValidStore(r.store) && UserKeys(r.newSettings) && r.repositionType == Unaltered
            && View(r) == if target == m.current then d else Forgetting(d, target)
  {
    hide GroupOf, NamesOf, PlaceOf, Contains, LiveOf, CommonOf, AlternativesOf, ValidStore, CommonKey, Extracted, Name,
         Loaded, Purged, Named;
    if target == m.current {
      NamedView(m, name);
    } else {
      var d := SettingsFor(m.store, m.current, target);
      SettingsForIs(m, target);
      PurgedView(m, target);
      var n := m.(store := Purged(m.store, [ROOT, target]));
      LoadedView(n, name, d);
      MergedIntoNone(View(n), name, d);
    }
  }

  lemma DeletedIs(m: Machine, target: string)
    requires Ready(m) && Name(target)
    ensures var (r, d) := (Deleted(m, target), Delete(View(m), target));
            && ValidStore(r.store) && UserKeys(r.newSettings) && r.repositionType == Unaltered
            && View(r) == if target == m.current then d else Forgetting(d, target)
  {
    hide GroupOf, NamesOf, PlaceOf, Contains, LiveOf, CommonOf, AlternativesOf, ValidStore, CommonKey, Name, Purged;
    if target != m.current {
      PurgedView(m, target);
    }
  }

  lemma UnsharedIs(m: Machine, key: string)
    requires ValidStore(m.store) && Name(key)
    ensures var r := Unshared(m, key);
            ValidStore(r.store) && r == m.(store := r.store) && View(r) == WithoutName(View(m), key)
  {
    hide GroupOf, NamesOf, PlaceOf, Contains, LiveOf, CommonOf, AlternativesOf, ValidStore, CommonKey;
    PrefixOfTwo(key);
    PurgedView(m, key);
  }

  // A key with a slash lies in a group. Removing it leaves the configurations alone exactly if nothing is there.
  lemma DeepUnsharedIs(m: Machine, key: string)
    requires ValidStore(m.store) && '/' in key
    ensures var (r, a) := (Unshared(m, key), key[..Slash(key)]);
            && ValidStore(r.store) && r == m.(store := r.store)
            && (View(r) == Unshare(View(m), key) <==> LeavesAlone(View(m), a, key[Slash(key) + 1..]))
  {
    hide GroupOf, NamesOf, PlaceOf, Contains, LiveOf, CommonOf, AlternativesOf, ValidStore, CommonKey, LeavesAlone,
         Under;
    var i := Slash(key);
    var a, r := key[..i], key[i + 1..];
    var t := Removed(m.store, CommonKey(key));
    assert CommonKey(key) == GroupPrefix(a) + r by {
      DeepKey(key);
    }
    DeepNotCommon(m.store, key);
    if a == "" {
      NothingWithoutName(m.store, r);
      AlternativesAreNamed(m.store);
      NamesAreNames(m.store);
      NothingToLeave(View(m), r);
    } else {
      DeepRemoved(m.store, a, r);
      NameIsCommon(m.store);
      NameIsCommon(t);
      DeepExactly(m.store, a, r, View(m));
    }
  }

  lemma DeepKey(key: string)
    requires '/' in key
    ensures var i := Slash(key); CommonKey(key) == GroupPrefix(key[..i]) + key[i + 1..]
  {
    var i := Slash(key);
    assert key == key[..i] + "/" + key[i + 1..];
  }

  lemma NothingToLeave(c: Configs, r: string)
    requires "" !in c.alternatives
    ensures LeavesAlone(c, "", r)
  {
  }

  lemma DeepNotCommon(store: Dictionary, key: string)
    requires '/' in key
    ensures CommonKey(key) !in CommonOf(store)
  {
    hide PlaceOf;
    PlaceOfDeepKey(key);
  }

  lemma NothingWithoutName(store: Dictionary, r: string)
    requires ValidStore(store)
    ensures Removed(store, GroupPrefix("") + r) == store
  {
    hide PlaceOf, Under;
    forall k <- store
      ensures !Under(GroupPrefix("") + r, k)
    {
      assert ValidKey(k);
      NamelessKey(r, k);
    }
  }

  lemma NamelessKey(r: string, k: string)
    ensures Under(GroupPrefix("") + r, k) ==> PlaceOf(k).Alternative? && PlaceOf(k).name == ""
  {
    if Under(GroupPrefix("") + r, k) {
      assert k[..|ROOT| + 1] == ROOT + "/" && k[|ROOT| + 1] == '/';
      SlashIs(k[|ROOT| + 1..], 0);
    }
  }

  lemma UnderInGroup(name: string, r: string, k: string)
    ensures Under(GroupPrefix(name) + r, GroupPrefix(name) + k) <==> Under(r, k)
  {
    var p := GroupPrefix(name);
    assert (p + k)[|p|..] == k && (p + r)[|p|..] == r;
    if Under(p + r, p + k) && k != r {
      assert (p + k)[..|p + r + "/"|] == p + r + "/";
      assert k[..|r + "/"|] == (p + k)[..|p + r + "/"|][|p|..] == r + "/";
    }
    if r + "/" <= k {
      assert (p + k)[..|p + r + "/"|] == p + k[..|r + "/"|];
    }
  }

  lemma DeepRemoved(store: Dictionary, name: string, r: string)
    requires ValidStore(store) && Name(name)
    ensures var t := Removed(store, GroupPrefix(name) + r);
            && ValidStore(t) && LiveOf(t) == LiveOf(store) && CommonOf(t) == CommonOf(store)
            && NamesOf(t) <= NamesOf(store) && NamesOf(t) - {name} == NamesOf(store) - {name}
            && (forall other | other != name && Name(other) :: GroupOf(t, other) == GroupOf(store, other))
            && (forall k :: k in GroupOf(t, name) <==> k in GroupOf(store, name) && !Under(r, k))
            && (forall k <- GroupOf(t, name) :: GroupOf(t, name)[k] == GroupOf(store, name)[k])
  {
    hide GroupOf, PlaceOf, LiveOf, CommonOf, Under;
    var t := Removed(store, GroupPrefix(name) + r);
    forall k: string | !(GroupPrefix(name) <= k)
      ensures !Under(GroupPrefix(name) + r, k)
    {
      UnderHasPrefix(GroupPrefix(name), r, k);
    }
    OthersUnchanged(store, t, name);
    assert ValidStore(t) by {
      assert forall k <- store :: ValidKey(k);
    }
    forall k: string
      ensures k in GroupOf(t, name) <==> k in GroupOf(store, name) && !Under(r, k)
      ensures k in GroupOf(t, name) ==> GroupOf(t, name)[k] == GroupOf(store, name)[k]
    {
      GroupOfIs(t, name, k);
      GroupOfIs(store, name, k);
      GroupValue(t, name, k);
      GroupValue(store, name, k);
      UnderInGroup(name, r, k);
    }
  }

  lemma UnderHasPrefix(prefix: string, r: string, k: string)
    ensures Under(prefix + r, k) ==> prefix <= k
  {
    if prefix + r + "/" <= k {
      assert k[..|prefix + r + "/"|] == prefix + r + "/";
    }
  }

  // The name stays exactly if a key in the group does.
  lemma NameStays(store: Dictionary, name: string, r: string)
    requires ValidStore(store) && Name(name) && name in NamesOf(store)
    ensures name in NamesOf(Removed(store, GroupPrefix(name) + r))
            <==> (exists k <- GroupOf(store, name) :: !Under(r, k))
                 || (GroupPrefix(name) + PLACEHOLDER in store && r != PLACEHOLDER)
  {
    hide GroupOf, PlaceOf, Under;
    var t := Removed(store, GroupPrefix(name) + r);
    NameHasKey(t, name);
    forall k: string
      ensures GroupPrefix(name) + k in t <==> GroupPrefix(name) + k in store && !Under(r, k)
      ensures k != PLACEHOLDER ==> (k in GroupOf(store, name) <==> GroupPrefix(name) + k in store)
    {
      UnderInGroup(name, r, k);
      GroupOfIs(store, name, k);
    }
    UnderPlaceholder(r);
    GroupOfIs(store, name, PLACEHOLDER);
    if key :| key in t && GroupPrefix(name) <= key {
      var k := key[|GroupPrefix(name)|..];
      assert key == GroupPrefix(name) + k;
    }
    if k :| k in GroupOf(store, name) && !Under(r, k) {
      assert GroupPrefix(name) + k in t && GroupPrefix(name) <= GroupPrefix(name) + k;
    }
  }

  lemma UnderPlaceholder(r: string)
    ensures Under(r, PLACEHOLDER) <==> r == PLACEHOLDER
  {
    NoSlash(PLACEHOLDER, r);
  }

  lemma NoSlash(s: string, r: string)
    ensures '/' !in s ==> !(r + "/" <= s)
  {
    if r + "/" <= s {
      assert s[|r|] == (r + "/")[|r|];
    }
  }

  lemma DeepExactly(store: Dictionary, name: string, r: string, c: Configs)
    requires ValidStore(store) && Name(name) && c.alternatives == AlternativesOf(store)
    ensures AlternativesOf(Removed(store, GroupPrefix(name) + r)) == AlternativesOf(store) <==> LeavesAlone(c, name, r)
  {
    hide GroupOf, NamesOf, PlaceOf, LiveOf, CommonOf, Under, ValidStore, Removed, Name;
    var t := Removed(store, GroupPrefix(name) + r);
    DeepRemoved(store, name, r);
    NamesAreNames(store);
    if name in NamesOf(store) {
      NameStays(store, name, r);
      GroupOrPlaceholder(store, name);
      AlternativeIs(store, name);
      if LeavesAlone(c, name, r) {
        assert GroupOf(t, name) == GroupOf(store, name);
        assert NamesOf(t) == NamesOf(t) - {name} + {name} == NamesOf(store);
      } else if name in NamesOf(t) {
        AlternativeIs(t, name);
        assert GroupOf(t, name) != GroupOf(store, name);
      } else {
        assert name !in AlternativesOf(t);
      }
    } else {
      assert NamesOf(t) == NamesOf(t) - {name} == NamesOf(store);
    }
  }

  lemma GroupOrPlaceholder(store: Dictionary, name: string)
    requires Name(name) && name in NamesOf(store)
    ensures GroupOf(store, name) != map[] || GroupPrefix(name) + PLACEHOLDER in store
  {
    hide GroupOf, NamesOf, PlaceOf;
    NameHasKey(store, name);
    var key :| key in store && GroupPrefix(name) <= key;
    var k := key[|GroupPrefix(name)|..];
    assert key == GroupPrefix(name) + k;
    GroupOfIs(store, name, k);
  }

  lemma SharedIs(m: Machine, key: string, value: Variant)
    requires ValidStore(m.store) && key != ""
    ensures var r := Shared(m, key, value);
            ValidStore(r.store) && View(r) == Share(View(m), key, value) <==> '/' !in key && key != CURRENT_NAME
  {
    hide GroupOf, NamesOf, PlaceOf, LiveOf, AlternativesOf, ValidStore, CommonKey;
    var t := Shared(m, key, value).store;
    NameIsCommon(m.store);
    NameIsCommon(t);
    assert CommonKey(key) in Share(View(m), key, value).common;
    if '/' in key {
      PlaceOfDeepKey(key);
      assert CommonKey(key) !in View(m.(store := t)).common;
    } else if key == CURRENT_NAME {
      assert CommonKey(key) !in View(m.(store := t)).common;
    } else {
      CommonEffect(m.store, key, value);
      OtherCommonKey(key);
      assert CommonOf(t) - {CommonKey(CURRENT_NAME)}
             == (CommonOf(m.store) - {CommonKey(CURRENT_NAME)})[CommonKey(key) := value];
    }
  }

  lemma PlaceOfDeepKey(key: string)
    requires '/' in key
    ensures !PlaceOf(CommonKey(key)).Common?
  {
    assert CommonKey(key)[|ROOT| + 1..] == key;
  }

  /* What a user and the application do, each with the restart that it may ask for */

  ghost function Choose(m: Machine, op: Operation): Machine {
    match op
    case Switching(target, live) => Worked(Selected(m, target), live)
    case Cloning(source, name) => Cloned(m, source, name)
    case Overwriting(target, source) => ClonedInto(m, target, source)
    case Resetting(target) => Cleared(m, target)
    case Renaming(target, name) => Renamed(m, target, name)
    case Deleting(target) => Deleted(m, target)
    case Working(live) => Worked(m, live)
    case Sharing(key, value) => Shared(m, key, value)
    case Unsharing(key) => Unshared(m, key)
  }

  ghost function Perform(m: Machine, op: Operation): Machine {
    Repositioned(Choose(m, op)).(mainWindow := true)
  }

  // What the menus and dialogs let through, and what the application may ask for.
  ghost predicate Offered(c: Configs, op: Operation) {
    match op
    case Switching(target, live) => target in All(c) && UserKeys(live)
    case Cloning(source, name) => source in All(c) && IsCopyName(All(c).Keys, source, name)
    case Overwriting(target, source) => target in All(c) && source in All(c) && source != target
    case Resetting(target) => target in All(c)
    case Renaming(target, name) => target in All(c) && name !in All(c) && '/' !in name
    case Deleting(target) => target in All(c)
    case Working(live) => UserKeys(live)
    case Sharing(key, _) => key != ""
    case Unsharing(key) => key != ""
  }

  ghost predicate Refines(m: Machine, op: Operation) {
    Ready(Perform(m, op)) && View(Perform(m, op)) == Do(View(m), op)
  }

  // What has to be checked before an operation.
  predicate Clear(c: Configs, op: Operation) {
    match op
    case Switching(target, _) => target == c.current || Unshadowed(c, target)
    case Overwriting(target, _) => Unshadowed(c, target) && (target == c.current || target != CURRENT_NAME)
    case Resetting(target) => Unshadowed(c, target) && (target == c.current || target != CURRENT_NAME)
    case Renaming(target, name) =>
      name != "" && (target == c.current || (Unshadowed(c, target) && target != CURRENT_NAME))
    case Deleting(target) => target == c.current || (Unshadowed(c, target) && target != CURRENT_NAME)
    case Sharing(key, _) => '/' !in key && key != CURRENT_NAME
    case Unsharing(key) =>
      if '/' in key then LeavesAlone(c, key[..Slash(key)], key[Slash(key) + 1..])
      else key != CURRENT_NAME && key !in c.alternatives
    case Cloning(_, _) => true
    case Working(_) => true
  }

  // Nothing of a configuration is at a key or under it, and it does not depend on its place-holder.
  predicate LeavesAlone(c: Configs, name: string, key: string) {
    name in c.alternatives ==>
      && (forall k <- c.alternatives[name] :: !Under(key, k))
      && (key == PLACEHOLDER ==> c.alternatives[name] != map[])
  }

  // With nothing pending the view stays.
  lemma UnalteredStays(m: Machine)
    requires m.repositionType == Unaltered
    ensures var r := Repositioned(m).(mainWindow := true);
            View(r) == View(m) && (Ready(r) <==> ValidStore(m.store) && Consistent(View(m)))
  {
  }

  lemma NamesInView(m: Machine)
    requires Valid(m)
    ensures forall name <- All(View(m)) :: Name(name)
    ensures CommonKey(CURRENT_NAME) !in View(m).common
  {
    NamesAreNames(m.store);
  }

  lemma SwitchingRefines(m: Machine, target: string, live: Dictionary)
    requires Ready(m) && Offered(View(m), Switching(target, live))
    ensures Refines(m, Switching(target, live)) <==> Clear(View(m), Switching(target, live))
  {
    hide GroupOf, NamesOf, PlaceOf, Contains, LiveOf, CommonOf, AlternativesOf, ValidStore, CommonKey, Name, Selected,
         Relived, Repositioned, UserKeys;
    SelectedIs(m, target);
    var n := Selected(m, target);
    assert m.mainWindow && n == n.(store := n.store);
    RelivedView(n, live);
    assert Valid(Worked(n, live)) by {
      SelectedWindow(m, target);
    }
    RepositionedIs(Worked(n, live));
  }

  lemma SelectedWindow(m: Machine, target: string)
    requires Ready(m)
    ensures var n := Selected(m, target);
            n.mainWindow ==> n.repositionType == Unaltered
  {
  }

  lemma CloningRefines(m: Machine, source: string, name: string)
    requires Ready(m) && Offered(View(m), Cloning(source, name))
    ensures Refines(m, Cloning(source, name))
  {
    hide GroupOf, NamesOf, PlaceOf, Contains, LiveOf, CommonOf, AlternativesOf, ValidStore, CommonKey, Name, Cloned,
         Repositioned, UserKeys;
    NamesInView(m);
    CopyNameIsName(All(View(m)).Keys, source, name);
    ClonedIs(m, source, name);
    RepositionedIs(Cloned(m, source, name));
  }

  lemma NameIsSome(name: string)
    requires Name(name)
    ensures name != ""
  {
  }

  // What an operation leaves, in general; a pending swap is valid.
  ghost predicate Left(r: Machine) {
    && ValidStore(r.store) && UserKeys(r.newSettings) && (r.mainWindow ==> r.repositionType == Unaltered)
    && (r.repositionType != Unaltered ==> Valid(r))
  }

  // If it leaves what it should, or forgets a common value besides, it refines exactly if none is forgotten.
  lemma LeftRefines(m: Machine, op: Operation, target: string, d: Configs)
    requires Ready(m) && Name(target) && Left(Choose(m, op)) && Do(View(m), op) == Configurations.Reposition(d)
    requires View(Choose(m, op)) == if target == m.current then d else Forgetting(d, target)
    requires d.pending.Unchanged? || target == m.current == d.current
    requires Settled(Configurations.Reposition(d)) && Name(d.current) && d.common == View(m).common
    ensures var c := View(m);
            Refines(m, op) <==> if target != c.current then Unshadowed(c, target) && target != CURRENT_NAME
                                else d.pending.Unchanged? || Unshadowed(c, target)
  {
    hide GroupOf, NamesOf, PlaceOf, Contains, LiveOf, CommonOf, AlternativesOf, ValidStore, CommonKey, Name, Choose,
         Repositioned, UserKeys, Do;
    var r := Choose(m, op);
    if r.repositionType == Unaltered {
      UnalteredStays(r);
      if target != m.current {
        NameIsSome(d.current);
        ForgettingIs(d, target);
      }
    } else {
      RepositionedIs(r);
      assert d.common - {CommonKey(target)} == d.common <==> Unshadowed(d, target);
    }
  }

  lemma OverwritingRefines(m: Machine, target: string, source: string)
    requires Ready(m) && Offered(View(m), Overwriting(target, source))
    ensures Refines(m, Overwriting(target, source)) <==> Clear(View(m), Overwriting(target, source))
  {
    hide GroupOf, NamesOf, PlaceOf, Contains, LiveOf, CommonOf, AlternativesOf, ValidStore, CommonKey, Name, ClonedInto,
         Repositioned, UserKeys, Refines, All;
    NamesInView(m);
    ClonedIntoIs(m, target, source);
    OverwriteAlone(View(m), target, source);
    LeftRefines(m, Overwriting(target, source), target, CloneInto(View(m), target, source));
  }

  lemma ResettingRefines(m: Machine, target: string)
    requires Ready(m) && Offered(View(m), Resetting(target))
    ensures Refines(m, Resetting(target)) <==> Clear(View(m), Resetting(target))
  {
    hide GroupOf, NamesOf, PlaceOf, Contains, LiveOf, CommonOf, AlternativesOf, ValidStore, CommonKey, Name, Cleared,
         Repositioned, UserKeys, Refines, All;
    NamesInView(m);
    ClearedIs(m, target);
    ResetEmpties(View(m), target);
    LeftRefines(m, Resetting(target), target, Reset(View(m), target));
  }

  lemma RenamingRefines(m: Machine, target: string, name: string)
    requires Ready(m) && Offered(View(m), Renaming(target, name))
    ensures Refines(m, Renaming(target, name)) <==> Clear(View(m), Renaming(target, name))
  {
    hide GroupOf, NamesOf, PlaceOf, Contains, LiveOf, CommonOf, AlternativesOf, ValidStore, CommonKey, Renamed,
         Repositioned, UserKeys, Refines, All;
    NamesInView(m);
    if name == "" {
      BlankIsNoName(m, target);
    } else {
      RenamedIs(m, target, name);
      RenameMoves(View(m), target, name);
      LeftRefines(m, Renaming(target, name), target, Rename(View(m), target, name));
    }
  }

  lemma BlankIsNoName(m: Machine, target: string)
    requires Ready(m) && target in All(View(m)) && "" !in All(View(m))
    ensures !Refines(m, Renaming(target, ""))
  {
    hide GroupOf, NamesOf, PlaceOf, Contains, LiveOf, CommonOf, AlternativesOf, ValidStore, CommonKey, Renamed,
         Repositioned, UserKeys, All;
    RenameMoves(View(m), target, "");
    assert "" in All(Do(View(m), Renaming(target, "")));
    if Refines(m, Renaming(target, "")) {
      NamesInView(Perform(m, Renaming(target, "")));
    }
  }

  lemma DeletingRefines(m: Machine, target: string)
    requires Ready(m) && Offered(View(m), Deleting(target))
    ensures Refines(m, Deleting(target)) <==> Clear(View(m), Deleting(target))
  {
    hide GroupOf, NamesOf, PlaceOf, Contains, LiveOf, CommonOf, AlternativesOf, ValidStore, CommonKey, Deleted, Name,
         Repositioned, UserKeys, Refines, All;
    NamesInView(m);
    DeletedIs(m, target);
    DeleteRemoves(View(m), target);
    LeftRefines(m, Deleting(target), target, Delete(View(m), target));
  }

  lemma WorkingRefines(m: Machine, live: Dictionary)
    requires Ready(m) && Offered(View(m), Working(live))
    ensures Refines(m, Working(live))
  {
    hide GroupOf, NamesOf, PlaceOf, Contains, LiveOf, CommonOf, AlternativesOf, ValidStore, CommonKey, Name, Relived,
         Repositioned, UserKeys;
    RelivedView(m, live);
    RepositionedIs(Worked(m, live));
  }

  lemma SharingRefines(m: Machine, key: string, value: Variant)
    requires Ready(m) && Offered(View(m), Sharing(key, value))
    ensures Refines(m, Sharing(key, value)) <==> Clear(View(m), Sharing(key, value))
  {
    hide GroupOf, NamesOf, PlaceOf, Contains, LiveOf, CommonOf, AlternativesOf, ValidStore, CommonKey, Name, UserKeys;
    SharedIs(m, key, value);
    UnalteredStays(Shared(m, key, value));
  }

  lemma UnsharingRefines(m: Machine, key: string)
    requires Ready(m) && Offered(View(m), Unsharing(key))
    ensures Refines(m, Unsharing(key)) <==> Clear(View(m), Unsharing(key))
  {
    hide GroupOf, NamesOf, PlaceOf, Contains, LiveOf, CommonOf, AlternativesOf, ValidStore, CommonKey, UserKeys,
         LeavesAlone, Unshared;
    if '/' in key {
      DeepUnsharedIs(m, key);
    } else {
      UnsharedIs(m, key);
    }
    UnalteredStays(Unshared(m, key));
    assert View(m).alternatives - {key} == View(m).alternatives <==> key !in View(m).alternatives;
  }

  // The program is to start again, and not to end, exactly after a switch to another configuration and after
  // overwriting or resetting the current one.
  lemma RestartsExactly(m: Machine, op: Operation)
    requires Ready(m) && Offered(View(m), op)
    ensures !Choose(m, op).exitFlag
            <==> || (op.Switching? && op.target != m.current)
                 || ((op.Overwriting? || op.Resetting?) && op.target == m.current)
  {
    hide GroupOf, NamesOf, Extracted, Prefixed, Purged, Relived, Loaded;
    AlternativesAreNamed(m.store);
  }

  // Each operation is the one on configurations exactly under its condition.
  lemma RefinesExactly(m: Machine, op: Operation)
    requires Ready(m) && Offered(View(m), op)
    ensures Refines(m, op) <==> Clear(View(m), op)
  {
    match op
    case Switching(target, live) => SwitchingRefines(m, target, live);
    case Cloning(source, name) => CloningRefines(m, source, name);
    case Overwriting(target, source) => OverwritingRefines(m, target, source);
    case Resetting(target) => ResettingRefines(m, target);
    case Renaming(target, name) => RenamingRefines(m, target, name);
    case Deleting(target) => DeletingRefines(m, target);
    case Working(live) => WorkingRefines(m, live);
    case Sharing(key, value) => SharingRefines(m, key, value);
    case Unsharing(key) => UnsharingRefines(m, key);
  }

  /* Runs of the program */

  ghost function RunOf(m: Machine, ops: seq<Operation>): Machine
    decreases |ops|
  {
    if ops == [] then m else RunOf(Perform(m, ops[0]), ops[1..])
  }

  ghost predicate Tracks(m: Machine, ops: seq<Operation>)
    decreases |ops|
  {
    ops == [] || (Refines(m, ops[0]) && Tracks(Perform(m, ops[0]), ops[1..]))
  }

  ghost predicate AllOffered(c: Configs, ops: seq<Operation>)
    decreases |ops|
  {
    ops == [] || (Offered(c, ops[0]) && AllOffered(Do(c, ops[0]), ops[1..]))
  }

  predicate AllClear(c: Configs, ops: seq<Operation>)
    decreases |ops|
  {
    ops == [] || (Clear(c, ops[0]) && AllClear(Do(c, ops[0]), ops[1..]))
  }

  // A run stays with the configurations exactly if each step is clear,
  lemma {:induction false} TracksExactly(m: Machine, ops: seq<Operation>)
    requires Ready(m) && AllOffered(View(m), ops)
    ensures Tracks(m, ops) <==> AllClear(View(m), ops)
    ensures Tracks(m, ops) ==> Ready(RunOf(m, ops)) && View(RunOf(m, ops)) == Run(View(m), ops)
    decreases |ops|
  {
    hide Ready, View, Offered, Do, Perform, Clear;
    if ops != [] {
      RefinesExactly(m, ops[0]);
      if Refines(m, ops[0]) {
        TracksExactly(Perform(m, ops[0]), ops[1..]);
      }
    }
  }

  // and then it is a run of the map of names to settings.
  lemma RunOfStoreIsPlain(m: Machine, ops: seq<Operation>)
    requires Ready(m) && AllOffered(View(m), ops) && AllClear(View(m), ops)
    ensures AllAllowed(Seen(View(m)), ops) && Seen(View(RunOf(m, ops))) == PlainRun(Seen(View(m)), ops)
  {
    hide Seen, Do, Offered, AllOffered, AllClear, ValidStore, NameIn, LiveOf, CommonOf, AlternativesOf, Settled,
         UserKeys;
    TracksExactly(m, ops);
    OfferedAreAllowed(View(m), ops);
    RunIsPlain(View(m), ops);
  }

  lemma {:induction false} OfferedAreAllowed(c: Configs, ops: seq<Operation>)
    requires Settled(c) && AllOffered(c, ops)
    ensures AllAllowed(Seen(c), ops)
    decreases |ops|
  {
    hide Do, Plainly, Settled;
    if ops != [] {
      OfferedIsAllowed(c, ops[0]);
      DoIsPlain(c, ops[0]);
      OfferedAreAllowed(Do(c, ops[0]), ops[1..]);
    }
  }

  lemma OfferedIsAllowed(c: Configs, op: Operation)
    requires Offered(c, op)
    ensures Allowed(Seen(c), op)
  {
  }

  /* Facts about the view */

  lemma OtherCommonKey(key: string)
    requires key != CURRENT_NAME
    ensures CommonKey(key) != CommonKey(CURRENT_NAME)
  {
    assert CommonKey(key)[|ROOT| + 1..] == key;
    assert CommonKey(CURRENT_NAME)[|ROOT| + 1..] == CURRENT_NAME;
  }

  // Nothing under a live setting lies in the root group.
  lemma NothingUnderLive(key: string, k: string)
    requires ValidKey(k) && !Contains(key, ROOT) && key + "/" <= k
    ensures !Contains(k, ROOT)
  {
    if ROOT + "/" <= k {
      UnderRoot(key, k);
    } else {
      LiveIsItself(k);
    }
  }

  lemma UnderRoot(key: string, k: string)
    requires ROOT + "/" <= k && key + "/" <= k
    ensures Contains(key, ROOT)
  {
    assert k[|key|] == '/' && k[..|ROOT|] == ROOT;
    assert |key| < |ROOT| ==> k[|key|] == ROOT[|key|];
    if |key| < |ROOT| {
      RootHasNoSlash(|key|);
    }
    assert key[..|ROOT|] == k[..|ROOT|];
    assert LiesAt(ROOT, key, 0);
  }

  lemma RootHasNoSlash(i: nat)
    requires i < |ROOT|
    ensures ROOT[i] != '/'
  {
  }

  lemma AlternativesAreNamed(store: Dictionary)
    ensures AlternativesOf(store).Keys == NamesOf(store)
  {
  }

  lemma AlternativeIs(store: Dictionary, name: string)
    requires name in NamesOf(store)
    ensures name in AlternativesOf(store) && AlternativesOf(store)[name] == GroupOf(store, name)
  {
  }

  lemma LiveHasUserKeys(store: Dictionary)
    requires ValidStore(store)
    ensures UserKeys(LiveOf(store))
  {
    forall key <- LiveOf(store)
      ensures UserKey(key)
    {
      assert ValidKey(key);
      LiveIsItself(key);
    }
  }

  lemma PrefixedByNothing(d: Dictionary)
    ensures Prefixed("", d) == d
  {
    forall k: string
      ensures k in Prefixed("", d) <==> k in d
      ensures k in d ==> Prefixed("", d)[k] == d[k]
    {
      PrefixedIs("", d, k);
      assert k[0..] == k;
    }
  }

  lemma GroupHoldsUserKeys(store: Dictionary, name: string)
    requires ValidStore(store) && Name(name)
    ensures UserKeys(GroupOf(store, name))
    ensures name !in NamesOf(store) ==> GroupOf(store, name) == map[]
  {
    hide PlaceOf, GroupOf;
    NameHasKey(store, name);
    forall key <- GroupOf(store, name)
      ensures UserKey(key) && name in NamesOf(store)
    {
      GroupOfIs(store, name, key);
      PlaceOfGroupKey(name, key);
      assert ValidKey(GroupPrefix(name) + key);
    }
  }

  lemma CopyNameIsName(taken: set<string>, source: string, name: string)
    requires IsCopyName(taken, source, name) && Name(source)
    ensures Name(name)
  {
    var i: nat :| IsFirstFree(taken, source, i) && name == Candidate(source, i);
    CandidateIsName(source, i);
  }
}
