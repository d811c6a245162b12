/** A flat store of settings in which the live configuration lies at the root and every other in a
    group of its own, all under one root group. */
module SettingsStore {

  datatype Variant = Nothing | Text(s: string) | Other(id: int)

  type Dictionary = map<string, Variant>

  const ROOT := "MultiSettings"
  const CURRENT_NAME := "CurrentName"
  const PLACEHOLDER := "MultiSettingsPlaceHolder"

  // Groups within groups, as a prefix of keys. A group without a name adds nothing.
  function Prefix(groups: seq<string>): string {
    if groups == [] then ""
    else
      var last := groups[|groups| - 1];
      Prefix(groups[..|groups| - 1]) + if last == "" then "" else last + "/"
  }

  // The same as the name of a group.
  function Group(groups: seq<string>): string {
    var prefix := Prefix(groups);
    if prefix == "" then "" else prefix[..|prefix| - 1]
  }

  lemma PrefixOfTwo(name: string)
    ensures Prefix([]) == "" && Prefix([ROOT]) == ROOT + "/" && Group([ROOT]) == ROOT
    ensures Prefix([ROOT, name]) == if name == "" then ROOT + "/" else GroupPrefix(name)
    ensures Group([ROOT, name]) == if name == "" then ROOT else CommonKey(name)
  {
    assert [ROOT, name][..1] == [ROOT];
  }

  predicate LiesAt(part: string, s: string, i: nat) {
    i + |part| <= |s| && s[i..i + |part|] == part
  }

  predicate Contains(s: string, part: string) {
    exists i | 0 <= i <= |s| :: LiesAt(part, s, i)
  }

  // The settings of the application itself stay clear of the root group's name. No key starts with
  // a slash.
  predicate UserKey(key: string) {
    !Contains(key, ROOT) && key != "" && key[0] != '/'
  }

  /* Where a key lies */

  datatype Place =
    | Live(key: string)
    | Common(key: string)
    | Alternative(name: string, key: string)

  // The first slash, or the length if there is none.
  function Slash(s: string): (i: nat)
    ensures i <= |s| && (forall k | 0 <= k < i :: s[k] != '/') && (i < |s| ==> s[i] == '/')
  {
    if s == "" || s[0] == '/' then 0 else 1 + Slash(s[1..])
  }

  function PlaceOf(key: string): Place {
    if ROOT + "/" <= key then
      var rest := key[|ROOT| + 1..];
      var i := Slash(rest);
      if i == |rest| then Common(rest) else Alternative(rest[..i], rest[i + 1..])
    else Live(key)
  }

  function GroupPrefix(name: string): string {
    ROOT + "/" + name + "/"
  }

  function CommonKey(key: string): string {
    ROOT + "/" + key
  }

  lemma KeysAre(name: string, key: string)
    ensures CommonKey(CURRENT_NAME) == "MultiSettings/CurrentName" && PLACEHOLDER == "MultiSettingsPlaceHolder"
    ensures GroupPrefix(name) + key == "MultiSettings/" + name + "/" + key
  {
  }

  predicate Name(s: string) {
    s != "" && '/' !in s
  }

  lemma SlashIs(s: string, i: nat)
    requires i <= |s| && (forall k | 0 <= k < i :: s[k] != '/') && (i < |s| ==> s[i] == '/')
    ensures Slash(s) == i
  {
    var j := Slash(s);
  }

  // The keys with a group's prefix are the keys in that group.
  lemma PlaceInGroup(name: string, key: string)
    requires Name(name)
    ensures GroupPrefix(name) <= key <==> (PlaceOf(key).Alternative? && PlaceOf(key).name == name)
    ensures GroupPrefix(name) <= key ==> PlaceOf(key) == Alternative(name, key[|GroupPrefix(name)|..])
  {
    if GroupPrefix(name) <= key {
      assert ROOT + "/" <= key;
      var rest := key[|ROOT| + 1..];
      assert rest[..|name|] == name && rest[|name|] == '/';
      SlashIs(rest, |name|);
    } else if PlaceOf(key).Alternative? {
      var rest := key[|ROOT| + 1..];
      var i := Slash(rest);
      assert key == ROOT + "/" + rest[..i] + "/" + rest[i + 1..];
    }
  }

  lemma PlaceOfGroupKey(name: string, key: string)
    requires Name(name)
    ensures PlaceOf(GroupPrefix(name) + key) == Alternative(name, key)
  {
    PlaceInGroup(name, GroupPrefix(name) + key);
    assert (GroupPrefix(name) + key)[|GroupPrefix(name)|..] == key;
  }

  lemma KeyOfAlternative(key: string)
    requires PlaceOf(key).Alternative?
    ensures var p := PlaceOf(key); key == GroupPrefix(p.name) + p.key && '/' !in p.name
  {
    var rest := key[|ROOT| + 1..];
    var i := Slash(rest);
    assert key == ROOT + "/" + rest[..i] + "/" + rest[i + 1..];
  }

  lemma PlaceOfUserKey(key: string)
    requires UserKey(key)
    ensures PlaceOf(key) == Live(key)
  {
    if ROOT + "/" <= key {
      assert LiesAt(ROOT, key, 0);
    }
  }

  lemma PlaceOfCommonKey(key: string)
    requires '/' !in key
    ensures PlaceOf(CommonKey(key)) == Common(key)
  {
    assert CommonKey(key)[|ROOT| + 1..] == key;
    SlashIs(key, |key|);
  }

  lemma RootIsContained(key: string)
    requires !PlaceOf(key).Live? || key == PLACEHOLDER
    ensures Contains(key, ROOT)
  {
    assert LiesAt(ROOT, key, 0);
  }

  /* What a store holds */

  ghost predicate ValidKey(key: string) {
    match PlaceOf(key)
    case Live(k) => UserKey(k)
    case Common(_) => true
    case Alternative(name, k) => name != "" && (k == PLACEHOLDER || UserKey(k))
  }

  ghost predicate ValidStore(store: Dictionary) {
    forall key <- store :: ValidKey(key)
  }

  ghost predicate UserKeys(d: Dictionary) {
    forall key <- d :: UserKey(key)
  }

  ghost function LiveOf(store: Dictionary): Dictionary {
    map key | key in store && PlaceOf(key).Live? :: store[key]
  }

  ghost function CommonOf(store: Dictionary): Dictionary {
    map key | key in store && PlaceOf(key).Common? :: store[key]
  }

  // The keys that belong to a configuration. The place-holder does not.
  ghost predicate InGroup(store: Dictionary, name: string, key: string) {
    GroupPrefix(name) + key in store && key != PLACEHOLDER
  }

  ghost function GroupOf(store: Dictionary, name: string): Dictionary {
    var keys := set k | k in store && GroupPrefix(name) <= k :: k[|GroupPrefix(name)|..];
    map key | key in keys && InGroup(store, name, key) :: store[GroupPrefix(name) + key]
  }

  lemma GroupOfIs(store: Dictionary, name: string, key: string)
    ensures key in GroupOf(store, name) <==> InGroup(store, name, key)
  {
    if InGroup(store, name, key) {
      var k := GroupPrefix(name) + key;
      assert k in store && GroupPrefix(name) <= k && k[|GroupPrefix(name)|..] == key;
    }
  }

  // The child groups of the root group.
  function NamesOf(store: Dictionary): set<string> {
    set key | key in store && PlaceOf(key).Alternative? :: PlaceOf(key).name
  }

  ghost function AlternativesOf(store: Dictionary): map<string, Dictionary> {
    map name | name in NamesOf(store) :: GroupOf(store, name)
  }

  lemma NameHasKey(store: Dictionary, name: string)
    requires Name(name)
    ensures name in NamesOf(store) <==> exists key <- store :: GroupPrefix(name) <= key
  {
    if name in NamesOf(store) {
      var key :| key in store && PlaceOf(key).Alternative? && PlaceOf(key).name == name;
      PlaceInGroup(name, key);
    }
    if key :| key in store && GroupPrefix(name) <= key {
      PlaceInGroup(name, key);
    }
  }

  lemma NamesAreNames(store: Dictionary)
    requires ValidStore(store)
    ensures forall name <- NamesOf(store) :: Name(name)
  {
    forall name <- NamesOf(store)
      ensures Name(name)
    {
      var key :| key in store && PlaceOf(key).Alternative? && PlaceOf(key).name == name;
      assert ValidKey(key);
      KeyOfAlternative(key);
    }
  }
}
