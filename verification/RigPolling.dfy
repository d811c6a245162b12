/** How a polled rig is given a few polls to reach the state it was told to take, so that clients do
    not see the states in between. */
module RigPolling {

  const POLLS_TO_STABILIZE := 3

  datatype Mode = UNK | CW | CW_R | USB | LSB | FSK | FSK_R | DIG_U | DIG_L | AM | FM | DIG_FM
  datatype Split = Unknown | Off | On

  datatype RigState = RigState(online: bool, frequency: nat, txFrequency: nat, mode: Mode, split: Split, ptt: bool)

  const NO_STATE := RigState(false, 0, 0, UNK, Unknown, false)

  datatype Command =
    | Started
    | Frequency(f: nat, m: Mode)
    | TxFrequency(f: nat)
    | SetMode(m: Mode)
    | Ptt(on: bool)

  // The state to expect after a command has been given to the rig. An unknown mode is one the
  // caller does not care about.
  function Expected(next: RigState, c: Command): RigState {
    match c
    case Started => next.(online := true)
    case Frequency(f, m) => next.(frequency := f, mode := if m == UNK then next.mode else m)
    case TxFrequency(f) =>
      if next.txFrequency == f then next else next.(txFrequency := f, split := if f != 0 then On else Off)
    case SetMode(m) => next.(mode := if m == UNK then next.mode else m)
    case Ptt(on) => next.(ptt := on)
  }

  // The actual state, the last one emitted, the one expected, the one last signalled by a poll, and
  // the polls left to reach the expected one.
  datatype Poller = Poller(actual: RigState, last: RigState, next: RigState, lastSignalled: RigState, retries: nat)

  const INITIAL := Poller(NO_STATE, NO_STATE, NO_STATE, NO_STATE, 0)

  // What happens to a poller: a command, a poll that finds a state, or a subclass that reports one
  // on its own account.
  datatype Event =
    | Commanded(command: Command)
    | Polled(found: RigState, force: bool)
    | Reported(found: RigState, force: bool)

  predicate MayUpdate(p: Poller) {
    p.retries == 0 || p.actual == p.next
  }

  predicate Emits(p: Poller, force: bool) {
    (MayUpdate(p) && p.actual != p.last) || force
  }

  // Whether a poll that has found the actual state signals it.
  predicate Signals(p: Poller, force: bool) {
    if p.retries > 0 then force || p.actual == p.next || p.retries == 1
    else force || p.actual != p.lastSignalled
  }

  function Signalled(p: Poller): Poller {
    Poller(p.actual, p.actual, p.actual, p.actual, 0)
  }

  // The poller after an event, and whether that emitted an update.
  function After(p: Poller, e: Event): (Poller, bool) {
    match e
    case Commanded(c) =>
      if Expected(p.next, c) == p.next then (p, false)
      else (p.(next := Expected(p.next, c), retries := POLLS_TO_STABILIZE), false)
    case Polled(found, force) =>
      var q := p.(actual := found);
      if Signals(q, force) then (Signalled(q), true)
      else (q.(retries := if p.retries > 0 then p.retries - 1 else 0), false)
    case Reported(found, force) =>
      var q := p.(actual := found);
      if Emits(q, force) then (q.(last := found), true) else (q, false)
  }

  class PollingTransceiver {
    var actual: RigState
    var last: RigState
    var nextState: RigState
    var lastSignalledState: RigState
    var retries: nat
    // The updates clients have been sent.
    var updates: seq<RigState>

    ghost function State(): Poller
      reads this
    {
      Poller(actual, last, nextState, lastSignalledState, retries)
    }

    constructor ()
      ensures State() == INITIAL && updates == []
      ensures actual == last == nextState == lastSignalledState == RigState(false, 0, 0, UNK, Unknown, false)
      ensures retries == 0
    {
      actual, last, nextState, lastSignalledState := NO_STATE, NO_STATE, NO_STATE, NO_STATE;
      retries, updates := 0, [];
    }

    method DoPostStart()
      modifies `nextState, `retries
      ensures State() == After(old(State()), Commanded(Started)).0
      ensures nextState == old(nextState).(online := true)
      ensures retries == if nextState == old(nextState) then old(retries) else 3
    {
      if !nextState.online {
        nextState := nextState.(online := true);
        retries := POLLS_TO_STABILIZE;
      }
    }

    method DoPostFrequency(f: nat, m: Mode)
      modifies `nextState, `retries
      ensures State() == After(old(State()), Commanded(Frequency(f, m))).0
      ensures nextState == old(nextState).(frequency := f, mode := if m == UNK then old(nextState.mode) else m)
      ensures retries == if nextState == old(nextState) then old(retries) else 3
    {
      if nextState.frequency != f || (m != UNK && nextState.mode != m) {
        nextState := nextState.(frequency := f);
        if m != UNK {
          nextState := nextState.(mode := m);
        }
        retries := POLLS_TO_STABILIZE;
      }
    }

    method DoPostTxFrequency(f: nat)
      modifies `nextState, `retries
      ensures State() == After(old(State()), Commanded(TxFrequency(f))).0
      ensures nextState == if old(nextState.txFrequency) == f then old(nextState)
                           else old(nextState).(txFrequency := f, split := if f == 0 then Off else On)
      ensures retries == if nextState == old(nextState) then old(retries) else 3
    {
      if nextState.txFrequency != f {
        nextState := nextState.(txFrequency := f);
        nextState := nextState.(split := if f != 0 then On else Off);
        retries := POLLS_TO_STABILIZE;
      }
    }

    method DoPostMode(m: Mode)
      modifies `nextState, `retries
      ensures State() == After(old(State()), Commanded(SetMode(m))).0
      ensures nextState == old(nextState).(mode := if m == UNK then old(nextState.mode) else m)
      ensures retries == if nextState == old(nextState) then old(retries) else 3
    {
      if m != UNK && nextState.mode != m {
        nextState := nextState.(mode := m);
        retries := POLLS_TO_STABILIZE;
      }
    }

    method DoPostPtt(p: bool)
      modifies `nextState, `retries
      ensures State() == After(old(State()), Commanded(Ptt(p))).0
      ensures nextState == old(nextState).(ptt := p)
      ensures retries == if nextState == old(nextState) then old(retries) else 3
    {
      if nextState.ptt != p {
        nextState := nextState.(ptt := p);
        retries := POLLS_TO_STABILIZE;
      }
    }

    // Withholds an update exactly while polls are left and the state is not the expected one.
    method DoPreUpdate() returns (update: bool)
      ensures !update <==> retries > 0 && actual != nextState
    {
      if retries != 0 && actual != nextState {
        return false;
      }
      return true;
    }

    method UpdateComplete(force: bool)
      modifies `last, `updates
      ensures State() == old(State()).(last := if Emits(old(State()), force) then actual else old(last))
      ensures updates == old(updates) + if Emits(old(State()), force) then [actual] else []
      ensures var emitted := force || (actual != old(last) && (retries == 0 || actual == nextState));
              && updates == old(updates) + (if emitted then [actual] else [])
              && last == if emitted then actual else old(last)
    {
      var update := DoPreUpdate();
      if (update && actual != last) || force {
        updates := updates + [actual];
        last := actual;
      }
    }

    // A subclass tells what it has found out about the rig.
    method Report(found: RigState, force: bool)
      modifies `actual, `last, `updates
      ensures var (p, emitted) := After(old(State()), Reported(found, force));
              State() == p && updates == old(updates) + if emitted then [found] else []
      ensures actual == found
      ensures var emitted := force || (found != old(last) && (retries == 0 || found == nextState));
              && updates == old(updates) + (if emitted then [found] else [])
              && last == if emitted then found else old(last)
    {
      actual := found;
      UpdateComplete(force);
    }

    // A poll. What it finds is the actual state as it is when nothing is polled.
    method DoSync(found: RigState, force: bool, noPoll: bool)
      modifies this
      ensures var (p, emitted) := After(old(State()), Polled(if noPoll then old(actual) else found, force));
              State() == p && updates == old(updates) + if emitted then [actual] else []
      ensures actual == if noPoll then old(actual) else found
      ensures var signalled := || force
                               || (old(retries) > 0 && (actual == old(nextState) || old(retries) == 1))
                               || (old(retries) == 0 && actual != old(lastSignalledState));
              && updates == old(updates) + (if signalled then [actual] else [])
              && if signalled then retries == 0 && nextState == lastSignalledState == last == actual
                 else
                   && retries == (if old(retries) > 0 then old(retries) - 1 else 0) && nextState == old(nextState)
                   && lastSignalledState == old(lastSignalledState) && last == old(last)
    {
      if !noPoll {
        actual := found;
      }
      var forceSignal := force;
      if retries > 0 {
        retries := retries - 1;
        if forceSignal || actual == nextState || retries == 0 {
          forceSignal := true;
        }
      } else if forceSignal || actual != lastSignalledState {
        forceSignal := true;
      }
      if forceSignal {
        retries := 0;
        nextState := actual;
        lastSignalledState := actual;
        UpdateComplete(true);
      }
    }
  }

  /* Runs */

  function Run(events: seq<Event>): Poller {
    if events == [] then INITIAL else After(Run(events[..|events| - 1]), events[|events| - 1]).0
  }

  // Event i emits an update.
  predicate Updates(events: seq<Event>, i: nat)
    requires i < |events|
  {
    After(Run(events[..i]), events[i]).1
  }

  // Over every run, at most three polls are left, and when none is, nothing else is expected than
  // what was last signalled.
  lemma {:induction false} AlwaysStable(events: seq<Event>)
    ensures var p := Run(events);
            p.retries <= 3 && (p.retries == 0 ==> p.next == p.lastSignalled)
  {
    if events != [] {
      AlwaysStable(events[..|events| - 1]);
    }
  }

  predicate ChangesExpectation(events: seq<Event>, i: nat)
    requires i < |events|
  {
    events[i].Commanded? && Expected(Run(events[..i]).next, events[i].command) != Run(events[..i]).next
  }

  // The polls among the events from one on.
  function Polls(events: seq<Event>, from: nat): nat
    requires from <= |events|
    decreases |events|
  {
    if |events| == from then 0
    else Polls(events[..|events| - 1], from) + if events[|events| - 1].Polled? then 1 else 0
  }

  // After a command, polls are used up one by one until one of them signals.
  lemma {:induction false} PollsAreUsedUp(events: seq<Event>, i: nat, n: nat)
    requires i < n <= |events| && ChangesExpectation(events, i)
    requires forall k | i < k < n :: !events[k].Commanded?
    requires forall k | i < k < n :: !(events[k].Polled? && Updates(events, k))
    ensures Run(events[..n]).retries + Polls(events[..n], i + 1) == POLLS_TO_STABILIZE
    ensures Run(events[..n]).retries > 0
    decreases n
  {
    assert events[..n][..n - 1] == events[..n - 1];
    if n > i + 1 {
      PollsAreUsedUp(events, i, n - 1);
      assert !Updates(events, n - 1) || events[n - 1].Reported?;
    }
  }

  // A command that changes what is expected is answered by an update within three polls, unless
  // another command comes first.
  lemma SignalledWithinThreePolls(events: seq<Event>, i: nat, n: nat)
    requires i < n <= |events| && ChangesExpectation(events, i)
    requires forall k | i < k < n :: !events[k].Commanded?
    requires Polls(events[..n], i + 1) >= 3
    ensures exists k :: i < k < n && events[k].Polled? && Updates(events, k)
  {
    if forall k | i < k < n :: !(events[k].Polled? && Updates(events, k)) {
      PollsAreUsedUp(events, i, n);
    }
  }

  // An update shows a state other than the expected one only if that was asked for, if no polls
  // were left to reach the expected one, or if the last of them failed to find it.
  lemma UpdatesAreExpected(events: seq<Event>, i: nat)
    requires i < |events| && Updates(events, i)
    ensures var p, e := Run(events[..i]), events[i];
            e.found == p.next || e.force || p.retries == 0 || (e.Polled? && p.retries == 1)
  {
  }

  // After a poll, either what it found is what was last signalled, or polls are left and it is not
  // what is expected.
  lemma PollSettles(events: seq<Event>, found: RigState, force: bool)
    ensures var p := Run(events + [Polled(found, force)]);
            if p.retries == 0 then found == p.lastSignalled == p.next
            else found != p.next && !force
  {
    AlwaysStable(events);
    assert (events + [Polled(found, force)])[..|events|] == events;
  }
}
