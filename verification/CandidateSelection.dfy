/** The selection of candidate signals: strongest first, each one removing everything within a
    frequency distance of itself.

    The container is taken in the order of its index by descending synchronisation value; its
    index by frequency is what the removal of a range goes through. */
module CandidateSelection {

  datatype Sync = Sync(freq: real, step: real, sync: real)

  const ASYNCMIN := 1.5
  const NMAXCAND := 300

  predicate Descending(index: seq<Sync>) {
    forall i, j | 0 <= i < j < |index| :: index[i].sync >= index[j].sync
  }

  predicate Near(a: Sync, b: Sync, az: real) {
    a.freq - az <= b.freq <= a.freq + az
  }

  predicate Covered(candidates: seq<Sync>, e: Sync, az: real) {
    exists c <- candidates :: Near(c, e, az)
  }

  // What is left of the container once the ranges around the candidates are erased.
  function Uncovered(index: seq<Sync>, candidates: seq<Sync>, az: real): seq<Sync> {
    if index == [] then []
    else
      var rest := Uncovered(index[..|index| - 1], candidates, az);
      var e := index[|index| - 1];
      if Covered(candidates, e, az) then rest else rest + [e]
  }

  // The position in the index of the first entry that is still there.
  ghost predicate FirstUncovered(index: seq<Sync>, candidates: seq<Sync>, az: real, p: nat) {
    && p < |index|
    && !Covered(candidates, index[p], az)
    && forall q | 0 <= q < p :: Covered(candidates, index[q], az)
  }

  lemma {:induction false} UncoveredMembers(index: seq<Sync>, candidates: seq<Sync>, az: real)
    ensures forall e :: e in Uncovered(index, candidates, az) <==> e in index && !Covered(candidates, e, az)
  {
    if index != [] {
      UncoveredMembers(index[..|index| - 1], candidates, az);
      assert index == index[..|index| - 1] + [index[|index| - 1]];
    }
  }

  lemma {:induction false} UncoveredFirst(index: seq<Sync>, candidates: seq<Sync>, az: real) returns (p: nat)
    requires Uncovered(index, candidates, az) != []
    ensures p < |index| && FirstUncovered(index, candidates, az, p) && index[p] == Uncovered(index, candidates, az)[0]
  {
    var n := |index| - 1;
    if Uncovered(index[..n], candidates, az) != [] {
      p := UncoveredFirst(index[..n], candidates, az);
    } else {
      p := n;
      UncoveredMembers(index[..n], candidates, az);
      forall q | 0 <= q < n
        ensures Covered(candidates, index[q], az)
      {
        assert index[..n][q] in index[..n];
      }
    }
  }

  // Erasing one more range leaves what is outside of all ranges.
  lemma {:induction false} EraseNext(index: seq<Sync>, candidates: seq<Sync>, c: Sync, az: real)
    ensures Uncovered(Uncovered(index, candidates, az), [c], az) == Uncovered(index, candidates + [c], az)
  {
    if index != [] {
      var n := |index| - 1;
      var e := index[n];
      var rest := Uncovered(index[..n], candidates, az);
      EraseNext(index[..n], candidates, c, az);
      assert Covered(candidates + [c], e, az) <==> Covered(candidates, e, az) || Near(c, e, az) by {
        assert c in candidates + [c];
        assert forall d <- candidates :: d in candidates + [c];
      }
      assert Covered([c], e, az) <==> Near(c, e, az) by {
        assert c in [c];
      }
      assert (rest + [e])[..|rest|] == rest;
    }
  }

  // Erases from the container every entry whose frequency lies in the range around a candidate.
  method Erase(index: seq<Sync>, c: Sync, az: real) returns (rest: seq<Sync>)
    ensures rest == Uncovered(index, [c], az)
  {
    rest := [];
    assert index[..0] == [];
    for i := 0 to |index|
      invariant rest == Uncovered(index[..i], [c], az)
    {
      assert index[..i + 1][..i] == index[..i];
      assert Covered([c], index[i], az) <==> Near(c, index[i], az) by {
        assert c in [c];
      }
      if !Near(c, index[i], az) {
        rest := rest + [index[i]];
      }
    }
    assert index[..|index|] == index;
  }

  // Candidates k is the strongest entry that no earlier candidate covers.
  ghost predicate Greedy(index: seq<Sync>, candidates: seq<Sync>, az: real) {
    forall k | 0 <= k < |candidates| ::
      exists p: nat :: p < |index| && FirstUncovered(index, candidates[..k], az, p) && index[p] == candidates[k]
  }

  // Extracts the candidates from the container, which it empties as it goes.
  method ExtractCandidates(container: seq<Sync>, az: real) returns (candidates: seq<Sync>)
    requires Descending(container) && az >= 0.0
    ensures |candidates| <= 300 && Greedy(container, candidates, az)
    ensures forall c <- candidates :: c.sync >= 1.5
    ensures |candidates| < 300 ==> forall e <- container :: e.sync >= 1.5 ==> Covered(candidates, e, az)
  {
    hide Greedy, Covered, Uncovered, FirstUncovered;
    candidates := [];
    var index := container;
    NothingErased(container, az);
    NothingChosen(container, az);
    while index != [] && |candidates| < NMAXCAND
      invariant |candidates| <= NMAXCAND && Greedy(container, candidates, az)
      invariant index == Uncovered(container, candidates, az)
      invariant forall c <- candidates :: c.sync >= ASYNCMIN
      decreases |index|
    {
      var it := index[0];
      ghost var p := UncoveredFirst(container, candidates, az);
      if it.sync < ASYNCMIN {
        RestIsWeak(container, candidates, az, p);
        return;
      }
      ghost var before := candidates;
      GreedyExtend(container, candidates, az, p);
      candidates := candidates + [it];
      ghost var all := index;
      index := Erase(index, it, az);
      EraseNext(container, before, it, az);
      FirstErased(all, it, az);
    }
    UncoveredMembers(container, candidates, az);
  }

  lemma NothingChosen(index: seq<Sync>, az: real)
    ensures Greedy(index, [], az)
  {
  }

  lemma PositionExists(index: seq<Sync>, candidates: seq<Sync>, az: real, p: nat)
    requires FirstUncovered(index, candidates, az, p)
    ensures p < |index|
  {
  }

  lemma GreedyExtend(index: seq<Sync>, candidates: seq<Sync>, az: real, p: nat)
    requires Greedy(index, candidates, az) && FirstUncovered(index, candidates, az, p)
    ensures p < |index| && Greedy(index, candidates + [index[p]], az)
  {
    PositionExists(index, candidates, az, p);
    hide FirstUncovered;
    var more := candidates + [index[p]];
    forall k | 0 <= k < |more|
      ensures exists q: nat :: q < |index| && FirstUncovered(index, more[..k], az, q) && index[q] == more[k]
    {
      if k == |candidates| {
        assert more[..k] == candidates;
      } else {
        assert more[..k] == candidates[..k];
      }
    }
  }

  lemma {:induction false} NothingErased(index: seq<Sync>, az: real)
    ensures Uncovered(index, [], az) == index
  {
    if index != [] {
      NothingErased(index[..|index| - 1], az);
      assert index == index[..|index| - 1] + [index[|index| - 1]];
    }
  }

  // A candidate covers itself, so the container shrinks.
  lemma {:induction false} FirstErased(index: seq<Sync>, c: Sync, az: real)
    requires index != [] && index[0] == c && az >= 0.0
    ensures |Uncovered(index, [c], az)| < |index|
  {
    var n := |index| - 1;
    assert c in [c];
    if n > 0 {
      FirstErased(index[..n], c, az);
    }
  }

  lemma RestIsWeak(container: seq<Sync>, candidates: seq<Sync>, az: real, p: nat)
    requires Descending(container) && FirstUncovered(container, candidates, az, p)
    requires p < |container| && container[p].sync < ASYNCMIN
    ensures forall e <- container :: e.sync >= ASYNCMIN ==> Covered(candidates, e, az)
  {
    forall e <- container | e.sync >= ASYNCMIN
      ensures Covered(candidates, e, az)
    {
      var q :| 0 <= q < |container| && container[q] == e;
    }
  }

  /* What greedy selection amounts to */

  // A result is at least as strong as everything that was still there when it was chosen.
  lemma ChosenIsStrongest(index: seq<Sync>, candidates: seq<Sync>, az: real, k: nat, e: Sync)
    requires Descending(index) && Greedy(index, candidates, az) && k < |candidates|
    requires e in index && !Covered(candidates[..k], e, az)
    ensures candidates[k].sync >= e.sync
  {
    hide Covered;
    var p: nat :| FirstUncovered(index, candidates[..k], az, p) && index[p] == candidates[k];
    var q :| 0 <= q < |index| && index[q] == e;
  }

  lemma CoveredByMore(fewer: seq<Sync>, more: seq<Sync>, e: Sync, az: real)
    requires fewer <= more && Covered(fewer, e, az)
    ensures Covered(more, e, az)
  {
    var c :| c in fewer && Near(c, e, az);
    assert c in more;
  }

  lemma ChosenIsUncovered(index: seq<Sync>, candidates: seq<Sync>, az: real, k: nat)
    requires Greedy(index, candidates, az) && k < |candidates|
    ensures candidates[k] in index && !Covered(candidates[..k], candidates[k], az)
  {
    hide Covered;
  }

  // Results come in order of strength.
  lemma CandidatesDescend(index: seq<Sync>, candidates: seq<Sync>, az: real)
    requires Descending(index) && Greedy(index, candidates, az)
    ensures Descending(candidates)
  {
    hide Greedy, Covered;
    forall i, j | 0 <= i < j < |candidates|
      ensures candidates[i].sync >= candidates[j].sync
    {
      ChosenIsUncovered(index, candidates, az, j);
      if Covered(candidates[..i], candidates[j], az) {
        CoveredByMore(candidates[..i], candidates[..j], candidates[j], az);
      }
      ChosenIsStrongest(index, candidates, az, i, candidates[j]);
    }
  }

  // No two results are within the distance of each other.
  lemma CandidatesSeparate(index: seq<Sync>, candidates: seq<Sync>, az: real)
    requires Greedy(index, candidates, az)
    ensures forall i, j | 0 <= i < |candidates| && 0 <= j < |candidates| && i != j ::
              !(candidates[i].freq - az <= candidates[j].freq <= candidates[i].freq + az)
  {
    hide Greedy;
    forall i, j | 0 <= i < j < |candidates|
      ensures !Near(candidates[i], candidates[j], az)
    {
      ChosenIsUncovered(index, candidates, az, j);
      assert candidates[i] in candidates[..j];
    }
  }

  // Whatever a result suppresses is no stronger than the first result to suppress it.
  lemma SuppressorIsStronger(index: seq<Sync>, candidates: seq<Sync>, az: real, e: Sync)
    requires Descending(index) && Greedy(index, candidates, az)
    requires e in index && Covered(candidates, e, az)
    ensures exists c <- candidates :: c.freq - az <= e.freq <= c.freq + az && c.sync >= e.sync
  {
    hide Greedy;
    var k := FirstSuppressor(candidates, e, az);
    ChosenIsStrongest(index, candidates, az, k, e);
    assert candidates[k] in candidates;
  }

  lemma FirstSuppressor(candidates: seq<Sync>, e: Sync, az: real) returns (k: nat)
    requires Covered(candidates, e, az)
    ensures k < |candidates| && Near(candidates[k], e, az) && !Covered(candidates[..k], e, az)
  {
    k := 0;
    var c :| c in candidates && Near(c, e, az);
    while !Near(candidates[k], e, az)
      invariant k < |candidates| && exists j | k <= j < |candidates| :: Near(candidates[j], e, az)
      invariant forall i | 0 <= i < k :: !Near(candidates[i], e, az)
      decreases |candidates| - k
    {
      k := k + 1;
    }
  }

  // When the limit cuts the selection short, what is not covered is no stronger than any result.
  lemma CutOffIsWeakest(index: seq<Sync>, candidates: seq<Sync>, az: real, e: Sync, k: nat)
    requires Descending(index) && Greedy(index, candidates, az)
    requires e in index && !Covered(candidates, e, az) && k < |candidates|
    ensures candidates[k].sync >= e.sync
  {
    hide Greedy, Covered;
    if Covered(candidates[..k], e, az) {
      CoveredByMore(candidates[..k], candidates, e, az);
    }
    ChosenIsStrongest(index, candidates, az, k, e);
  }
}
