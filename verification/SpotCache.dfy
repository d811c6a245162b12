/** Which spots are queued: at most one for a call and band within the cache timeout, unless there
    is an eclipse; a spot that comes too soon replaces the latest one still queued. */
module SpotCache {
  import opened Bytes
  import opened SpotReports

  const CACHE_TIMEOUT := 3600

  // The band of a frequency, by name.
  type Bands = nat -> seq<Byte>
  type Key = seq<Byte>

  datatype Queue = Queue(spots: seq<Spot>, calls: map<Key, int>)

  datatype Event =
    | Arrival(spot: Spot, now: int, eclipse: bool)
    | Sending(count: nat)

  function KeyOf(bands: Bands, spot: Spot): Key {
    spot.call + [0x5F] + bands(spot.freq)
  }

  predicate Admits(calls: map<Key, int>, key: Key, now: int, eclipse: bool) {
    key !in calls || calls[key] < now - CACHE_TIMEOUT || eclipse
  }

  predicate Same(bands: Bands, a: Spot, b: Spot) {
    a.call == b.call && bands(a.freq) == bands(b.freq)
  }

  // One more than the index of the last of the first n spots for the same call and band; 0 if none.
  function Latest(bands: Bands, spots: seq<Spot>, spot: Spot, n: nat): (i: nat)
    requires n <= |spots|
    ensures i <= n
    ensures i > 0 ==> Same(bands, spots[i - 1], spot)
    ensures forall k | i <= k < n :: !Same(bands, spots[k], spot)
  {
    if n == 0 || Same(bands, spots[n - 1], spot) then n else Latest(bands, spots, spot, n - 1)
  }

  function Replaced(bands: Bands, q: Queue, spot: Spot, now: int): Queue {
    var i := Latest(bands, q.spots, spot, |q.spots|);
    if i == 0 then q else Queue(q.spots[i - 1 := spot], q.calls[KeyOf(bands, spot) := now])
  }

  function Purged(calls: map<Key, int>, now: int): map<Key, int> {
    map key | key in calls && now - calls[key] <= CACHE_TIMEOUT * 2 :: calls[key]
  }

  // What an arrival does, apart from the purge.
  function Arrived(bands: Bands, q: Queue, spot: Spot, now: int, eclipse: bool): Queue {
    var key := KeyOf(bands, spot);
    if Admits(q.calls, key, now, eclipse) then Queue(q.spots + [spot], q.calls[key := now])
    else Replaced(bands, q, spot, now)
  }

  function After(bands: Bands, q: Queue, e: Event): Queue {
    match e
    case Arrival(spot, now, eclipse) =>
      var r := Arrived(bands, q, spot, now, eclipse);
      r.(calls := Purged(r.calls, now))
    case Sending(count) => q.(spots := if count <= |q.spots| then q.spots[count..] else [])
  }

  function State(bands: Bands, events: seq<Event>): Queue {
    if events == [] then Queue([], map[])
    else After(bands, State(bands, events[..|events| - 1]), events[|events| - 1])
  }

  // The clock does not go back.
  ghost predicate Ordered(events: seq<Event>) {
    forall i, j | 0 <= i < j < |events| && events[i].Arrival? && events[j].Arrival? :: events[i].now <= events[j].now
  }

  // Event i puts a spot into the queue.
  predicate Enqueues(bands: Bands, events: seq<Event>, i: nat)
    requires i < |events|
  {
    && events[i].Arrival?
    && Admits(State(bands, events[..i]).calls, KeyOf(bands, events[i].spot), events[i].now, events[i].eclipse)
  }

  /* The rate limit */

  // A time that some arrival among the first n has left behind by more than a span.
  ghost predicate Past(events: seq<Event>, n: nat, time: int, span: int)
    requires n <= |events|
  {
    exists m: nat :: m < n && events[m].Arrival? && events[m].now - time > span
  }

  lemma PastLater(events: seq<Event>, n: nat, time: int, span: int, j: nat)
    requires n <= j < |events| && Ordered(events) && Past(events, n, time, span) && events[j].Arrival?
    ensures events[j].now - time > span
  {
  }

  lemma PastGrows(events: seq<Event>, n: nat, time: int, span: int)
    requires n < |events| && (Past(events, n, time, span) || (events[n].Arrival? && events[n].now - time > span))
    ensures Past(events, n + 1, time, span)
  {
    if Past(events, n, time, span) {
      var m: nat :| m < n && events[m].Arrival? && events[m].now - time > span;
      assert m < n + 1;
    }
  }

  // After an enqueue, its time or a later one is remembered, until it is long past.
  lemma {:induction false} EnqueueIsRemembered(bands: Bands, events: seq<Event>, i: nat, n: nat)
    requires i < n <= |events| && Ordered(events) && Enqueues(bands, events, i)
    ensures var key, calls := KeyOf(bands, events[i].spot), State(bands, events[..n]).calls;
            if key in calls then calls[key] >= events[i].now
            else Past(events, n, events[i].now, 2 * CACHE_TIMEOUT)
  {
    hide KeyOf, Same, Past, Latest, Ordered;
    var key := KeyOf(bands, events[i].spot);
    assert events[..n][..n - 1] == events[..n - 1];
    var time := events[i].now;
    if n - 1 > i {
      EnqueueIsRemembered(bands, events, i, n - 1);
      if Past(events, n - 1, time, 2 * CACHE_TIMEOUT)
         || (events[n - 1].Arrival? && events[n - 1].now - time > 2 * CACHE_TIMEOUT) {
        PastGrows(events, n - 1, time, 2 * CACHE_TIMEOUT);
      }
      if events[n - 1].Arrival? {
        NotBefore(events, i, n - 1);
      }
    }
  }

  lemma NotBefore(events: seq<Event>, i: nat, j: nat)
    requires i <= j < |events| && Ordered(events) && events[i].Arrival? && events[j].Arrival?
    ensures events[i].now <= events[j].now
  {
  }

  // Over any run, two spots queued for one call and band are more than the cache timeout apart,
  // unless the later came with an eclipse.
  lemma EnqueuesAreSpaced(bands: Bands, events: seq<Event>, i: nat, j: nat)
    requires i < j < |events| && Ordered(events)
    requires Enqueues(bands, events, i) && Enqueues(bands, events, j)
    requires KeyOf(bands, events[i].spot) == KeyOf(bands, events[j].spot) && !events[j].eclipse
    ensures events[j].now - events[i].now > 3600
  {
    EnqueueIsRemembered(bands, events, i, j);
    if KeyOf(bands, events[i].spot) !in State(bands, events[..j]).calls {
      PastLater(events, j, events[i].now, 2 * CACHE_TIMEOUT, j);
    }
  }

  // One call on one band has one key, and, as no band's name holds the separator, only one.
  lemma KeysAreUnambiguous(bands: Bands, a: Spot, b: Spot)
    requires 0x5F !in bands(a.freq) && 0x5F !in bands(b.freq)
    ensures KeyOf(bands, a) == KeyOf(bands, b) <==> Same(bands, a, b)
  {
    var k, l := KeyOf(bands, a), KeyOf(bands, b);
    SeparatorIsLast(a.call, bands(a.freq));
    SeparatorIsLast(b.call, bands(b.freq));
    if k == l {
      assert k[..|a.call|] == a.call && l[..|b.call|] == b.call;
      assert k[|a.call| + 1..] == bands(a.freq) && l[|b.call| + 1..] == bands(b.freq);
    }
  }

  lemma SeparatorIsLast(call: seq<Byte>, band: seq<Byte>)
    requires 0x5F !in band
    ensures var key := call + [0x5F] + band;
            key[|call|] == 0x5F && forall i | |call| < i < |key| :: key[i] != 0x5F
  {
    forall i | |call| < i < |call| + 1 + |band|
      ensures (call + [0x5F] + band)[i] != 0x5F
    {
      assert (call + [0x5F] + band)[i] == band[i - |call| - 1];
    }
  }

  // What an arrival does, in numbers: a call that is unknown on the band, or was last queued or refreshed more than an
  // hour ago, is queued; and every call is remembered for two hours.
  lemma ArrivalIs(bands: Bands, q: Queue, spot: Spot, now: int, eclipse: bool)
    ensures var (key, r) := (spot.call + [0x5F] + bands(spot.freq), After(bands, q, Arrival(spot, now, eclipse)));
            var queued := key !in q.calls || now - q.calls[key] > 3600 || eclipse;
            var renewed := queued || exists k :: IsLatest(bands, q.spots, spot, k);
            var known := if renewed then q.calls[key := now] else q.calls;
            && (queued ==> r.spots == q.spots + [spot])
            && (!queued ==>
                  && |r.spots| == |q.spots|
                  && forall k | 0 <= k < |q.spots| ::
                       r.spots[k] == if IsLatest(bands, q.spots, spot, k) then spot else q.spots[k])
            && (forall k :: k in r.calls <==> k in known && now - known[k] <= 7200)
            && (forall k <- r.calls :: r.calls[k] == known[k])
  {
    hide IsLatest, Latest;
    if !Admits(q.calls, KeyOf(bands, spot), now, eclipse) {
      SuppressedUpdatesLatest(bands, q, spot, now, eclipse);
    }
  }

  // A spot that is not admitted leaves the queue as long as it was, and changes in it at most the
  // last spot for the same call and band; without such a spot nothing is remembered either.
  lemma SuppressedUpdatesLatest(bands: Bands, q: Queue, spot: Spot, now: int, eclipse: bool)
    requires !Admits(q.calls, KeyOf(bands, spot), now, eclipse)
    ensures var r := Arrived(bands, q, spot, now, eclipse);
            && |r.spots| == |q.spots|
            && (forall k | 0 <= k < |q.spots| ::
                  r.spots[k] == if IsLatest(bands, q.spots, spot, k) then spot else q.spots[k])
            && r.calls == if exists k :: IsLatest(bands, q.spots, spot, k) then q.calls[KeyOf(bands, spot) := now]
                          else q.calls
  {
    hide Same, KeyOf, IsLatest, Latest, Admits;
    LatestIs(bands, q.spots, spot);
  }

  lemma LatestIs(bands: Bands, spots: seq<Spot>, spot: Spot)
    ensures var i := Latest(bands, spots, spot, |spots|);
            && (forall k :: IsLatest(bands, spots, spot, k) <==> i > 0 && k == i - 1)
            && (i > 0 ==> IsLatest(bands, spots, spot, i - 1))
  {
    hide Same;
    var i := Latest(bands, spots, spot, |spots|);
    if i > 0 {
      assert IsLatest(bands, spots, spot, i - 1);
    }
  }

  ghost predicate IsLatest(bands: Bands, spots: seq<Spot>, spot: Spot, k: int) {
    && 0 <= k < |spots| && Same(bands, spots[k], spot)
    && forall l | k < l < |spots| :: !Same(bands, spots[l], spot)
  }

  /* The purge */

  // The same run with a cache that is never purged.
  function Unpurged(bands: Bands, events: seq<Event>): Queue {
    if events == [] then Queue([], map[])
    else
      var q, e := Unpurged(bands, events[..|events| - 1]), events[|events| - 1];
      if e.Arrival? then Arrived(bands, q, e.spot, e.now, e.eclipse) else After(bands, q, e)
  }

  // What the purge has taken is long past.
  ghost predicate OnlyOldMissing(events: seq<Event>, n: nat, purged: map<Key, int>, all: map<Key, int>)
    requires n <= |events|
  {
    && (forall key <- purged :: key in all && purged[key] == all[key])
    && forall key <- all :: key in purged || Past(events, n, all[key], 2 * CACHE_TIMEOUT)
  }

  lemma StillOnlyOldMissing(events: seq<Event>, n: nat, purged: map<Key, int>, all: map<Key, int>)
    requires n < |events| && OnlyOldMissing(events, n, purged, all)
    ensures OnlyOldMissing(events, n + 1, purged, all)
    ensures events[n].Arrival? ==> OnlyOldMissing(events, n + 1, Purged(purged, events[n].now), all)
  {
    hide Past;
    forall key <- all | key !in purged || (events[n].Arrival? && events[n].now - all[key] > 2 * CACHE_TIMEOUT)
      ensures Past(events, n + 1, all[key], 2 * CACHE_TIMEOUT)
    {
      PastGrows(events, n, all[key], 2 * CACHE_TIMEOUT);
    }
  }

  // The purge only saves memory: no run can tell.
  lemma {:induction false} PurgeIsInvisible(bands: Bands, events: seq<Event>, n: nat)
    requires n <= |events| && Ordered(events)
    ensures State(bands, events[..n]).spots == Unpurged(bands, events[..n]).spots
    ensures OnlyOldMissing(events, n, State(bands, events[..n]).calls, Unpurged(bands, events[..n]).calls)
  {
    if n > 0 {
      hide KeyOf, Same, Past, Latest, Ordered, OnlyOldMissing, Purged, State, Unpurged;
      PurgeIsInvisible(bands, events, n - 1);
      var p, q, e := State(bands, events[..n - 1]), Unpurged(bands, events[..n - 1]), events[n - 1];
      Unfold(bands, events, n);
      if e.Arrival? {
        AdmitsAlike(bands, events, n - 1, p, q);
        ArrivedAlike(bands, events, n - 1, p, q);
        var r, s := Arrived(bands, p, e.spot, e.now, e.eclipse), Arrived(bands, q, e.spot, e.now, e.eclipse);
        StillOnlyOldMissing(events, n - 1, r.calls, s.calls);
      } else {
        StillOnlyOldMissing(events, n - 1, p.calls, q.calls);
      }
    }
  }

  lemma Unfold(bands: Bands, events: seq<Event>, n: nat)
    requires 0 < n <= |events|
    ensures State(bands, events[..n]) == After(bands, State(bands, events[..n - 1]), events[n - 1])
    ensures var q, e := Unpurged(bands, events[..n - 1]), events[n - 1];
            Unpurged(bands, events[..n])
            == if e.Arrival? then Arrived(bands, q, e.spot, e.now, e.eclipse) else After(bands, q, e)
  {
    hide After, Arrived;
    assert events[..n][..n - 1] == events[..n - 1];
  }

  lemma AdmitsAlike(bands: Bands, events: seq<Event>, n: nat, p: Queue, q: Queue)
    requires n < |events| && Ordered(events) && events[n].Arrival? && OnlyOldMissing(events, n, p.calls, q.calls)
    ensures var e, key := events[n], KeyOf(bands, events[n].spot);
            Admits(p.calls, key, e.now, e.eclipse) == Admits(q.calls, key, e.now, e.eclipse)
  {
    hide KeyOf, Past, Ordered;
    var key := KeyOf(bands, events[n].spot);
    if key in q.calls && key !in p.calls {
      PastLater(events, n, q.calls[key], 2 * CACHE_TIMEOUT, n);
    }
  }

  lemma ArrivedAlike(bands: Bands, events: seq<Event>, n: nat, p: Queue, q: Queue)
    requires n < |events| && events[n].Arrival? && OnlyOldMissing(events, n, p.calls, q.calls) && p.spots == q.spots
    requires var e, key := events[n], KeyOf(bands, events[n].spot);
             Admits(p.calls, key, e.now, e.eclipse) == Admits(q.calls, key, e.now, e.eclipse)
    ensures var e := events[n];
            var r, s := Arrived(bands, p, e.spot, e.now, e.eclipse), Arrived(bands, q, e.spot, e.now, e.eclipse);
            r.spots == s.spots && OnlyOldMissing(events, n, r.calls, s.calls)
  {
    hide KeyOf, Past, Same, Admits, Latest;
  }
}
