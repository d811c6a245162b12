/** Named configurations as they should behave: a map from names to settings, one of which is live. */
module Configurations {
  import opened SettingsStore

  // What is to be done to the live settings when the windows are closed.
  datatype Pending =
    | Unchanged
    | Replace(settings: Dictionary)
    | SaveAndReplace(settings: Dictionary)

  datatype Configs = Configs(
    current: string,
    stored: string,
    live: Dictionary,
    alternatives: map<string, Dictionary>,
    common: Dictionary,
    pending: Pending)

  // Every configuration by its name.
  function All(c: Configs): map<string, Dictionary> {
    c.alternatives[c.current := c.live]
  }

  // Nothing is pending, and the current name is not also that of an alternative.
  predicate Settled(c: Configs) {
    c.pending.Unchanged? && c.stored == c.current && c.current !in c.alternatives
  }

  function SettingsOf(c: Configs, name: string): Dictionary {
    if name == c.stored then c.live else if name in c.alternatives then c.alternatives[name] else map[]
  }

  /* Operations */

  function Select(c: Configs, target: string): Configs {
    if target != c.current && target in c.alternatives then
      c.(current := target, pending := SaveAndReplace(c.alternatives[target]))
    else c
  }

  function Reposition(c: Configs): Configs {
    match c.pending
    case Unchanged => c
    case Replace(settings) =>
      SwapIn(c, settings)
    case SaveAndReplace(settings) =>
      SwapIn(c.(alternatives := c.alternatives[c.stored := c.live]), settings)
  }

  function SwapIn(c: Configs, settings: Dictionary): Configs {
    c.(stored := c.current, live := settings, alternatives := c.alternatives - {c.current}, pending := Unchanged)
  }

  function Clone(c: Configs, source: string, name: string): Configs {
    c.(alternatives := c.alternatives[name := SettingsOf(c, source)])
  }

  function CloneInto(c: Configs, target: string, source: string): Configs {
    if target == c.current then c.(pending := Replace(SettingsOf(c, source)))
    else c.(alternatives := c.alternatives[target := SettingsOf(c, source)])
  }

  function Reset(c: Configs, target: string): Configs {
    if target == c.current then c.(pending := Replace(map[]))
    else c.(alternatives := c.alternatives[target := map[]])
  }

  function Rename(c: Configs, target: string, name: string): Configs {
    if target == c.current then c.(current := name, stored := name)
    else c.(alternatives := (c.alternatives - {target})[name := SettingsOf(c, target)])
  }

  function Delete(c: Configs, target: string): Configs {
    if target == c.current then c else c.(alternatives := c.alternatives - {target})
  }

  // What the application does to the live settings on its own account.
  function Work(c: Configs, live: Dictionary): Configs {
    c.(live := live)
  }

  // Values common to all configurations.
  function Share(c: Configs, key: string, value: Variant): Configs {
    c.(common := c.common[CommonKey(key) := value])
  }

  function Unshare(c: Configs, key: string): Configs {
    c.(common := c.common - {CommonKey(key)})
  }

  /* Each operation, once any restart it asks for has happened, is an update of the map of names */

  // Switching loses nothing: not even what was changed between the choice and the restart.
  lemma SwitchKeepsAll(c: Configs, target: string, live: Dictionary)
    requires Settled(c) && target in All(c)
    ensures var d := Reposition(Work(Select(c, target), live));
            Settled(d) && d.current == target && All(d) == All(c)[c.current := live]
  {
    if target != c.current {
      var d := Reposition(Work(Select(c, target), live));
      assert All(d).Keys == All(c).Keys;
    }
  }

  lemma CloneAddsOne(c: Configs, source: string, name: string)
    requires Settled(c) && source in All(c) && name !in All(c)
    ensures var d := Reposition(Clone(c, source, name));
            Settled(d) && d.current == c.current && All(d) == All(c)[name := All(c)[source]]
  {
  }

  lemma CloneIntoOverwrites(c: Configs, target: string, source: string, live: Dictionary)
    requires Settled(c) && source in All(c) && target in All(c) && source != target
    ensures var d := Reposition(Work(CloneInto(c, target, source), live));
            && Settled(d) && d.current == c.current
            && All(d)
               == (if target == c.current then All(c) else All(c)[c.current := live])[target := SettingsOf(c, source)]
            && SettingsOf(c, source) == All(c)[source]
  {
    if target == c.current {
      assert c.alternatives - {c.current} == c.alternatives;
    }
  }

  lemma ResetEmpties(c: Configs, target: string)
    requires Settled(c) && target in All(c)
    ensures var d := Reposition(Reset(c, target));
            Settled(d) && d.current == c.current && All(d) == All(c)[target := map[]]
  {
    if target == c.current {
      assert c.alternatives - {c.current} == c.alternatives;
    }
  }

  lemma RenameMoves(c: Configs, target: string, name: string)
    requires Settled(c) && target in All(c) && name !in All(c)
    ensures var d := Reposition(Rename(c, target, name));
            && Settled(d) && d.current == (if target == c.current then name else c.current)
            && All(d) == (All(c) - {target})[name := All(c)[target]]
  {
    var d := Reposition(Rename(c, target, name));
    if target == c.current {
      assert All(c) - {target} == c.alternatives;
    } else {
      assert All(d).Keys == (All(c) - {target})[name := All(c)[target]].Keys;
    }
  }

  lemma DeleteRemoves(c: Configs, target: string)
    requires Settled(c)
    ensures var d := Reposition(Delete(c, target));
            && Settled(d) && d.current == c.current
            && All(d) == if target == c.current then All(c) else All(c) - {target}
  {
    if target != c.current {
      assert All(Delete(c, target)).Keys == (All(c) - {target}).Keys;
    }
  }

  /* Runs */

  datatype Operation =
    | Switching(target: string, live: Dictionary)
    | Cloning(source: string, name: string)
    | Overwriting(target: string, source: string)
    | Resetting(target: string)
    | Renaming(target: string, name: string)
    | Deleting(target: string)
    | Working(live: Dictionary)
    | Sharing(key: string, value: Variant)
    | Unsharing(key: string)

  // A map of names to settings, and the name in use.
  datatype Plain = Plain(settings: map<string, Dictionary>, current: string)

  // What the user asks for must exist, and a new name must not.
  predicate Allowed(p: Plain, op: Operation) {
    match op
    case Switching(target, _) => target in p.settings
    case Cloning(source, name) => source in p.settings && name !in p.settings
    case Overwriting(target, source) => source in p.settings && target in p.settings && source != target
    case Resetting(target) => target in p.settings
    case Renaming(target, name) => target in p.settings && name !in p.settings
    case _ => true
  }

  function Plainly(p: Plain, op: Operation): Plain
    requires Allowed(p, op)
  {
    match op
    case Switching(target, live) => Plain(p.settings[p.current := live], target)
    case Cloning(source, name) => p.(settings := p.settings[name := p.settings[source]])
    case Overwriting(target, source) => p.(settings := p.settings[target := p.settings[source]])
    case Resetting(target) => p.(settings := p.settings[target := map[]])
    case Renaming(target, name) =>
      Plain((p.settings - {target})[name := p.settings[target]], if target == p.current then name else p.current)
    case Deleting(target) => if target == p.current then p else p.(settings := p.settings - {target})
    case Working(live) => p.(settings := p.settings[p.current := live])
    case Sharing(_, _) => p
    case Unsharing(_) => p
  }

  // The same with the deferred swap that each operation may ask for.
  function Do(c: Configs, op: Operation): Configs {
    Reposition(
      match op
      case Switching(target, live) => Work(Select(c, target), live)
      case Cloning(source, name) => Clone(c, source, name)
      case Overwriting(target, source) => CloneInto(c, target, source)
      case Resetting(target) => Reset(c, target)
      case Renaming(target, name) => Rename(c, target, name)
      case Deleting(target) => Delete(c, target)
      case Working(live) => Work(c, live)
      case Sharing(key, value) => Share(c, key, value)
      case Unsharing(key) => Unshare(c, key)
    )
  }

  function Seen(c: Configs): Plain {
    Plain(All(c), c.current)
  }

  lemma DoIsPlain(c: Configs, op: Operation)
    requires Settled(c) && Allowed(Seen(c), op)
    ensures Settled(Do(c, op)) && Seen(Do(c, op)) == Plainly(Seen(c), op)
  {
    hide All, Select, Reposition, Clone, CloneInto, Reset, Rename, Delete, Work;
    match op
    case Switching(target, live) => SwitchKeepsAll(c, target, live);
    case Cloning(source, name) => CloneAddsOne(c, source, name);
    case Overwriting(target, source) => OverwriteAlone(c, target, source);
    case Resetting(target) => ResetEmpties(c, target);
    case Renaming(target, name) => RenameMoves(c, target, name);
    case Deleting(target) => DeleteRemoves(c, target);
    case Working(live) => WorkIsLive(c, live);
    case Sharing(key, value) => SharedIsApart(c, Share(c, key, value));
    case Unsharing(key) => SharedIsApart(c, Unshare(c, key));
  }

  lemma SharedIsApart(c: Configs, d: Configs)
    requires Settled(c) && d == c.(common := d.common)
    ensures Settled(Reposition(d)) && Seen(Reposition(d)) == Seen(c)
  {
  }

  lemma OverwriteAlone(c: Configs, target: string, source: string)
    requires Settled(c) && source in All(c) && target in All(c) && source != target
    ensures var d := Reposition(CloneInto(c, target, source));
            Settled(d) && d.current == c.current && All(d) == All(c)[target := All(c)[source]]
  {
    CloneIntoOverwrites(c, target, source, c.live);
  }

  lemma WorkIsLive(c: Configs, live: Dictionary)
    requires Settled(c)
    ensures var d := Reposition(Work(c, live));
            Settled(d) && d.current == c.current && All(d) == All(c)[c.current := live]
  {
  }

  ghost predicate AllAllowed(p: Plain, ops: seq<Operation>)
    decreases |ops|
  {
    ops == [] || (Allowed(p, ops[0]) && AllAllowed(Plainly(p, ops[0]), ops[1..]))
  }

  function PlainRun(p: Plain, ops: seq<Operation>): Plain
    requires AllAllowed(p, ops)
    decreases |ops|
  {
    if ops == [] then p else PlainRun(Plainly(p, ops[0]), ops[1..])
  }

  function Run(c: Configs, ops: seq<Operation>): Configs
    decreases |ops|
  {
    if ops == [] then c else Run(Do(c, ops[0]), ops[1..])
  }

  // Over any run the store behaves as the map: no configuration is lost, mixed up or doubled.
  lemma {:induction false} RunIsPlain(c: Configs, ops: seq<Operation>)
    requires Settled(c) && AllAllowed(Seen(c), ops)
    ensures Settled(Run(c, ops)) && Seen(Run(c, ops)) == PlainRun(Seen(c), ops)
    decreases |ops|
  {
    if ops != [] {
      hide Seen, Do, Plainly, Allowed, Settled;
      DoIsPlain(c, ops[0]);
      RunIsPlain(Do(c, ops[0]), ops[1..]);
    }
  }

  /* Names for copies */

  function Decimal(n: nat): (s: string)
    ensures |s| >= 1 && (|s| == 1 <==> n < 10)
    ensures forall c <- s :: '0' <= c <= '9'
  {
    var digit := ['0' + (n % 10) as char];
    if n < 10 then digit else Decimal(n / 10) + digit
  }

  lemma {:induction false} DecimalIsInjective(m: nat, n: nat)
    requires Decimal(m) == Decimal(n)
    ensures m == n
  {
    var s, t := Decimal(m), Decimal(n);
    assert s[|s| - 1] == '0' + (m % 10) as char && t[|t| - 1] == '0' + (n % 10) as char;
    assert m % 10 == n % 10;
    if m >= 10 && n >= 10 {
      assert Decimal(m / 10) == s[..|s| - 1] == t[..|t| - 1] == Decimal(n / 10);
      DecimalIsInjective(m / 10, n / 10);
    }
  }

  // The names that are tried for a copy, one after the other.
  function Candidate(source: string, i: nat): string {
    if i == 0 then source + " - Copy" else source + " - Copy" + "(" + Decimal(i + 1) + ")"
  }

  lemma FirstCandidates(source: string)
    ensures Candidate(source, 0) == source + " - Copy" && Candidate(source, 1) == source + " - Copy(2)"
    ensures Candidate(source, 9) == source + " - Copy(10)"
  {
    assert Decimal(1) == "1";
    assert Decimal(10) == "10";
  }

  lemma CandidatesDiffer(source: string, i: nat, j: nat)
    requires Candidate(source, i) == Candidate(source, j)
    ensures i == j
  {
    var root := source + " - Copy";
    if i > 0 && j > 0 {
      var s, t := Decimal(i + 1), Decimal(j + 1);
      var a, b := Candidate(source, i), Candidate(source, j);
      assert a[|root| + 1..|a| - 1] == s && b[|root| + 1..|b| - 1] == t;
      DecimalIsInjective(i + 1, j + 1);
    }
  }

  // The first name tried that is free.
  ghost predicate IsCopyName(taken: set<string>, source: string, name: string) {
    exists i: nat :: IsFirstFree(taken, source, i) && name == Candidate(source, i)
  }

  ghost predicate IsFirstFree(taken: set<string>, source: string, i: nat) {
    Candidate(source, i) !in taken && forall j: nat | j < i :: Candidate(source, j) in taken
  }

  // Names cannot all be taken.
  lemma {:induction false} TriedAreTaken(taken: set<string>, source: string, n: nat)
    requires forall j: nat | j < n :: Candidate(source, j) in taken
    ensures n <= |taken|
  {
    if n > 0 {
      var last := Candidate(source, n - 1);
      forall j: nat | j < n - 1
        ensures Candidate(source, j) in taken - {last}
      {
        if Candidate(source, j) == last {
          CandidatesDiffer(source, j, n - 1);
        }
      }
      TriedAreTaken(taken - {last}, source, n - 1);
    }
  }

  method CopyName(taken: set<string>, source: string) returns (name: string)
    ensures IsCopyName(taken, source, name) && name !in taken
  {
    var root := source + " - Copy";
    name := root;
    var index := 0;
    TriedAreTaken(taken, source, 0);
    while name in taken
      invariant name == Candidate(source, index)
      invariant forall j: nat | j < index :: Candidate(source, j) in taken
      decreases |taken| - index
    {
      TriedAreTaken(taken, source, index + 1);
      index := index + 1;
      name := root + "(" + Decimal(index + 1) + ")";
    }
    assert IsFirstFree(taken, source, index);
  }

  lemma CandidateIsName(source: string, i: nat)
    requires Name(source)
    ensures Name(Candidate(source, i))
  {
    if i > 0 {
      assert '/' !in Decimal(i + 1);
    }
  }
}
