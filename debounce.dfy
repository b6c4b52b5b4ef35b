/** The debounce gate on `bat_thm_count` that a zone candidate passes
    before it becomes the committed thermal zone. */
module Debounce {
  import opened ThermalTypes

  /** The committed zone and the debounce counter. */
  datatype Gate = Gate(zone: Zone, count: int)

  /** One tick: a candidate equal to the committed zone leaves the counter
      as it is (it is not reset); any other candidate counts one more
      stray tick, and once `needed` is reached the candidate commits and
      the counter restarts from zero. */
  function Step(g: Gate, candidate: Zone, needed: int): (r: Gate)
    ensures candidate == g.zone ==> r == g
    ensures r.zone == g.zone || r.zone == candidate
    ensures r.zone != g.zone <==> candidate != g.zone && g.count + 1 >= needed
    ensures r.zone != g.zone ==> r.count == 0
    ensures candidate != g.zone && r.zone == g.zone ==> r.count == g.count + 1
  {
    if candidate == g.zone then g
    else if g.count + 1 < needed then Gate(g.zone, g.count + 1)
    else Gate(candidate, 0)
  }

  /** Successive ticks with the given candidates. */
  function Run(g: Gate, candidates: seq<Zone>, needed: int): Gate
    decreases |candidates|
  {
    if candidates == [] then g else Run(Step(g, candidates[0], needed), candidates[1..], needed)
  }

  /** How many candidates differ from zone `z`. */
  function Strays(z: Zone, candidates: seq<Zone>): (n: nat)
    ensures n <= |candidates|
    decreases |candidates|
  {
    if candidates == [] then 0
    else (if candidates[0] != z then 1 else 0) + Strays(z, candidates[1..])
  }

  /** The zone holds as long as the stray candidates, counted together
      with what the counter already holds, stay below `needed`; the stray
      ticks need not be consecutive nor name the same zone, and the
      counter ends at exactly their number. In particular, with a fresh
      counter and `needed` at least 2, a single stray reading never moves
      the zone. */
  lemma {:induction false} StraysBelowNeededKeepZone(g: Gate, candidates: seq<Zone>, needed: int)
    requires g.count + Strays(g.zone, candidates) < needed
    ensures Run(g, candidates, needed) == Gate(g.zone, g.count + Strays(g.zone, candidates))
    decreases |candidates|
  {
    if candidates != [] {
      var g' := Step(g, candidates[0], needed);
      assert g'.zone == g.zone;
      StraysBelowNeededKeepZone(g', candidates[1..], needed);
    }
  }

  /** Ticks whose candidate is the committed zone change nothing. */
  lemma {:induction false} SteadyRunKeepsGate(g: Gate, n: nat, needed: int)
    ensures Run(g, seq(n, _ => g.zone), needed) == g
  {
    if n > 0 {
      var s := seq(n, _ => g.zone);
      assert s[1..] == seq(n - 1, _ => g.zone);
      SteadyRunKeepsGate(g, n - 1, needed);
    }
  }

  /** A candidate `c` that persists commits on the tick that brings the
      counter to `needed`, and not before. */
  lemma {:induction false} PersistentCandidateCommits(z: Zone, c: Zone, k: int, n: nat, needed: int)
    requires c != z
    requires 0 <= k < needed
    ensures Run(Gate(z, k), seq(n, _ => c), needed) ==
      if k + n < needed then Gate(z, k + n) else Gate(c, 0)
    decreases n
  {
    var s := seq(n, _ => c);
    if n > 0 {
      assert s[0] == c;
      assert s[1..] == seq(n - 1, _ => c);
      if k + 1 < needed {
        PersistentCandidateCommits(z, c, k + 1, n - 1, needed);
      } else {
        SteadyRunKeepsGate(Gate(c, 0), n - 1, needed);
      }
    }
  }

  /** Running two stretches of ticks is running their concatenation. */
  lemma {:induction false} RunAppend(g: Gate, a: seq<Zone>, b: seq<Zone>, needed: int)
    ensures Run(g, a + b, needed) == Run(Run(g, a, needed), b, needed)
    decreases |a|
  {
    if a != [] {
      assert (a + b)[0] == a[0];
      assert (a + b)[1..] == a[1..] + b;
      RunAppend(Step(g, a[0], needed), a[1..], b, needed);
    } else {
      assert a + b == b;
    }
  }

  /** Stray candidates separated by readings of the committed zone, and
      naming any zones, still add up: once the counter plus the strays so
      far reaches `needed` - 1, the next stray candidate commits, and the
      counter restarts from zero. */
  lemma {:induction false} InterleavedStraysCommit(g: Gate, candidates: seq<Zone>, c: Zone, needed: int)
    requires c != g.zone
    requires g.count + Strays(g.zone, candidates) == needed - 1
    ensures Run(g, candidates + [c], needed) == Gate(c, 0)
  {
    RunAppend(g, candidates, [c], needed);
    StraysBelowNeededKeepZone(g, candidates, needed);
    assert Run(g, candidates, needed) == Gate(g.zone, needed - 1);
  }
}
