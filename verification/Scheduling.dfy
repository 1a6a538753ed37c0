/** Spreading claimed tiles over the connected devices. */
module Scheduling {

  // --------------------------------------------------------------------------
  // Least loaded first
  // --------------------------------------------------------------------------

  function Sum(loads: seq<nat>): nat {
    if loads == [] then 0 else Sum(loads[..|loads| - 1]) + loads[|loads| - 1]
  }

  /** One more tile for device i. */
  function Give(loads: seq<nat>, i: nat): seq<nat>
    requires i < |loads|
  {
    loads[i := loads[i] + 1]
  }

  /** The loads after handing out tiles by some list of choices. */
  function GiveAll(loads: seq<nat>, choices: seq<nat>): (res: seq<nat>)
    requires forall n | 0 <= n < |choices| :: choices[n] < |loads|
    ensures |res| == |loads|
  {
    if choices == [] then loads
    else Give(GiveAll(loads, choices[..|choices| - 1]), choices[|choices| - 1])
  }

  ghost predicate LeastLoaded(loads: seq<nat>, i: nat) {
    i < |loads| && forall j | 0 <= j < |loads| :: loads[i] <= loads[j]
  }

  ghost predicate InRange(choices: seq<nat>, n: nat) {
    forall k | 0 <= k < |choices| :: choices[k] < n
  }

  /** Every choice takes a device that is least loaded at that moment. */
  ghost predicate LeastFirst(loads: seq<nat>, choices: seq<nat>)
    requires InRange(choices, |loads|)
  {
    forall n | 0 <= n < |choices| :: LeastLoaded(GiveAll(loads, choices[..n]), choices[n])
  }

  lemma {:induction false} GiveSum(loads: seq<nat>, i: nat)
    requires i < |loads|
    ensures Sum(Give(loads, i)) == Sum(loads) + 1
  {
    var n := |loads| - 1;
    if i < n {
      GiveSum(loads[..n], i);
      assert Give(loads, i)[..n] == Give(loads[..n], i);
    } else {
      assert Give(loads, i)[..n] == loads[..n];
    }
  }

  /** However tiles are handed out, no load shrinks and the total grows by their number. */
  lemma {:induction false} GiveAllSum(loads: seq<nat>, choices: seq<nat>)
    requires InRange(choices, |loads|)
    ensures Sum(GiveAll(loads, choices)) == Sum(loads) + |choices|
    ensures forall i | 0 <= i < |loads| :: GiveAll(loads, choices)[i] >= loads[i]
  {
    if choices != [] {
      var n := |choices| - 1;
      GiveAllSum(loads, choices[..n]);
      GiveSum(GiveAll(loads, choices[..n]), choices[n]);
    }
  }

  /** A device that received work is at most one above any other. */
  ghost predicate Level(loads: seq<nat>, final: seq<nat>) {
    && |final| == |loads|
    && forall i, j | 0 <= i < |loads| && 0 <= j < |loads| && final[i] > loads[i] :: final[i] <= final[j] + 1
  }

  lemma {:induction false} LeastFirstIsLevel(loads: seq<nat>, choices: seq<nat>)
    requires InRange(choices, |loads|) && LeastFirst(loads, choices)
    ensures Level(loads, GiveAll(loads, choices))
  {
    if choices != [] {
      var n := |choices| - 1;
      assert forall k | 0 <= k < n :: choices[..n][..k] == choices[..k];
      LeastFirstIsLevel(loads, choices[..n]);
      assert LeastLoaded(GiveAll(loads, choices[..n]), choices[n]);
    }
  }

  lemma {:induction false} SumMono(a: seq<nat>, b: seq<nat>)
    requires |a| == |b| && forall i | 0 <= i < |a| :: a[i] <= b[i]
    ensures Sum(a) <= Sum(b)
  {
    if a != [] {
      SumMono(a[..|a| - 1], b[..|b| - 1]);
    }
  }

  lemma {:induction false} SumStrict(a: seq<nat>, b: seq<nat>, k: nat)
    requires |a| == |b| && k < |a| && a[k] < b[k] && forall i | 0 <= i < |a| :: a[i] <= b[i]
    ensures Sum(a) < Sum(b)
  {
    var n := |a| - 1;
    if k < n {
      SumStrict(a[..n], b[..n], k);
    } else {
      SumMono(a[..n], b[..n]);
    }
  }

  /** Some device of `other` is at least as loaded as device i of `final`. */
  ghost predicate NoWorse(final: seq<nat>, i: nat, other: seq<nat>)
    requires i < |final|
  {
    exists j | 0 <= j < |other| :: final[i] <= other[j]
  }

  /** Level loads: no way of adding the same amount to the same loads has a smaller maximum. */
  lemma {:induction false} LevelIsBest(loads: seq<nat>, final: seq<nat>, other: seq<nat>, i: nat)
    requires Level(loads, final) && |other| == |loads| && i < |loads|
    requires forall j | 0 <= j < |loads| :: loads[j] <= other[j] && loads[j] <= final[j]
    requires Sum(other) == Sum(final)
    ensures NoWorse(final, i, other)
  {
    if final[i] == loads[i] {
      assert final[i] <= other[i];
    } else if !NoWorse(final, i, other) {
      forall j | 0 <= j < |loads|
        ensures other[j] <= final[j]
      {
        assert other[j] < final[i];
      }
      SumStrict(other, final, i);
    }
  }

  /**
   Least loaded first leaves every device that received work at most one above the least
   loaded, and no assignment of the same tiles has a smaller maximum load.
   */
  lemma {:induction false} LeastFirstIsBest(loads: seq<nat>, choices: seq<nat>, others: seq<nat>)
    requires InRange(choices, |loads|) && LeastFirst(loads, choices)
    requires InRange(others, |loads|) && |others| == |choices|
    ensures Level(loads, GiveAll(loads, choices))
    ensures forall i | 0 <= i < |loads| :: NoWorse(GiveAll(loads, choices), i, GiveAll(loads, others))
  {
    LeastFirstIsLevel(loads, choices);
    GiveAllSum(loads, choices);
    GiveAllSum(loads, others);
    forall i | 0 <= i < |loads|
      ensures NoWorse(GiveAll(loads, choices), i, GiveAll(loads, others))
    {
      LevelIsBest(loads, GiveAll(loads, choices), GiveAll(loads, others), i);
    }
  }

  /** Scans for the first least loaded device. */
  method FindLeastLoaded(loads: seq<nat>) returns (best: nat)
    requires loads != []
    ensures LeastLoaded(loads, best)
    ensures forall j | 0 <= j < best :: loads[j] > loads[best]
  {
    best := 0;
    var minLoad := loads[0];
    for i := 1 to |loads|
      invariant best < i && minLoad == loads[best]
      invariant forall j | 0 <= j < i :: loads[best] <= loads[j]
      invariant forall j | 0 <= j < best :: loads[j] > loads[best]
    {
      if loads[i] < minLoad {
        minLoad := loads[i];
        best := i;
      }
    }
  }

  /** Hands out `count` tiles; device n of the choices gets tile n.  Without devices nothing is handed out. */
  method RedistributeByLoad(loads: seq<nat>, count: nat) returns (choices: seq<nat>, current: seq<nat>)
    ensures |choices| == (if loads == [] then 0 else count) && InRange(choices, |loads|)
    ensures current == GiveAll(loads, choices) && LeastFirst(loads, choices)
  {
    choices, current := [], loads;
    if loads == [] {
      return;
    }
    for n := 0 to count
      invariant |choices| == n && InRange(choices, |loads|)
      invariant current == GiveAll(loads, choices) && LeastFirst(loads, choices)
    {
      var best := FindLeastLoaded(current);
      ghost var before := choices;
      choices := choices + [best];
      assert choices[..n] == before;
      assert forall k | 0 <= k < n :: choices[..k] == before[..k];
      current := current[best := current[best] + 1];
    }
  }

  // --------------------------------------------------------------------------
  // Round robin
  // --------------------------------------------------------------------------

  /** How many of the choices fall on a device. */
  function Share(choices: seq<nat>, i: nat): nat {
    if choices == [] then 0
    else Share(choices[..|choices| - 1], i) + (if choices[|choices| - 1] == i then 1 else 0)
  }

  /** Turn by turn: devices before `next` have had one turn more than the others. */
  ghost predicate Turns(choices: seq<nat>, m: nat, next: nat, rounds: nat) {
    && next < m
    && forall i | 0 <= i < m :: Share(choices, i) == rounds + (if i < next then 1 else 0)
  }

  lemma {:induction false} TurnNext(choices: seq<nat>, m: nat, next: nat, rounds: nat)
    requires Turns(choices, m, next, rounds)
    ensures if next + 1 < m then Turns(choices + [next], m, next + 1, rounds)
            else Turns(choices + [next], m, 0, rounds + 1)
  {
    assert (choices + [next])[..|choices|] == choices;
  }

  lemma {:induction false} NextIndex(next: nat, m: nat)
    requires next < m
    ensures (next + 1) % m == if next + 1 == m then 0 else next + 1
  {
  }

  /** Round robin hands every device the same number of tiles, up to one. */
  method RedistributeInTurn(m: nat, count: nat) returns (choices: seq<nat>)
    ensures |choices| == (if m == 0 then 0 else count) && InRange(choices, m)
    ensures forall i, j | 0 <= i < m && 0 <= j < m :: Share(choices, i) <= Share(choices, j) + 1
  {
    choices := [];
    if m == 0 {
      return;
    }
    var next: nat := 0;
    ghost var rounds: nat := 0;
    for n := 0 to count
      invariant |choices| == n && InRange(choices, m)
      invariant Turns(choices, m, next, rounds)
    {
      TurnNext(choices, m, next, rounds);
      NextIndex(next, m);
      choices := choices + [next];
      if next + 1 == m {
        rounds := rounds + 1;
      }
      next := (next + 1) % m;
    }
  }
}
