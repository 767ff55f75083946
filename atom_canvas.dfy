/**
 * The 2D atom picture (components/AtomCanvas.tsx): how many electrons each shell
 * shows, and which nucleus particles are protons. Coordinates are not modelled.
 */
module AtomCanvas {
  import opened Types
  import Seqs

  /** Capacities of the four drawn shells, innermost first. */
  const Capacities: seq<nat> := [2, 8, 18, 32]

  /** Electrons the drawn shells can hold together. */
  const MaxPlaced: nat := 60

  /** Total capacity of the first `k` shells: 0, 2, 10, 28, 60. */
  function CapacityBefore(k: nat): nat
    requires k <= |Capacities|
  {
    if k == 0 then 0 else CapacityBefore(k - 1) + Capacities[k - 1]
  }

  function Min(a: int, b: int): int { if a <= b then a else b }

  function Max(a: int, b: int): int { if a >= b then a else b }

  /**
   * Electrons shell `k` receives when `electrons` fill the shells strictly left to
   * right: what the earlier shells leave over, at most the shell's capacity.
   */
  function ShellCount(electrons: nat, k: nat): (c: nat)
    requires k < |Capacities|
    ensures c <= Capacities[k]
  {
    Min(Max(electrons - CapacityBefore(k), 0), Capacities[k])
  }

  /** Number of entries the 2D distribution has: up to the shell where the electrons run out. */
  function ShellsUsed(electrons: nat): (n: nat)
    ensures 1 <= n <= |Capacities|
  {
    if electrons <= CapacityBefore(1) then 1
    else if electrons <= CapacityBefore(2) then 2
    else if electrons <= CapacityBefore(3) then 3
    else 4
  }

  /**
   * The per-shell electron counts of the 2D picture, stated shell by shell. The
   * shape promised to the drawing code: one to four entries, each within its
   * shell's capacity, every entry but the last full, `[0]` for no electrons and no
   * empty shell otherwise.
   */
  function Distribution(electrons: nat): (d: seq<nat>)
    ensures 1 <= |d| <= |Capacities|
    ensures forall k :: 0 <= k < |d| ==> d[k] <= Capacities[k]
    ensures forall k :: 0 <= k < |d| - 1 ==> d[k] == Capacities[k]
    ensures d == [0] <==> electrons == 0
    ensures electrons > 0 ==> forall k :: 0 <= k < |d| ==> d[k] > 0
  {
    seq(ShellsUsed(electrons), k requires 0 <= k < ShellsUsed(electrons) => ShellCount(electrons, k))
  }

  /**
   * getElectronDistribution: walk the capacities, filling a shell while more
   * electrons remain than it holds, and stop at the first shell that takes the rest.
   */
  method ElectronDistribution(electrons: nat) returns (distribution: seq<nat>)
    ensures distribution == Distribution(electrons)
  {
    var remaining: int := electrons;
    distribution := [];
    for k := 0 to |Capacities|
      invariant |distribution| == k
      invariant forall j :: 0 <= j < k ==> distribution[j] == Capacities[j]
      invariant remaining == electrons - CapacityBefore(k)
      invariant k > 0 ==> electrons > CapacityBefore(k)
    {
      var cap := Capacities[k];
      if remaining > cap {
        distribution := distribution + [cap];
        remaining := remaining - cap;
      } else {
        distribution := distribution + [remaining];
        remaining := 0;
        break;
      }
    }
  }

  /** Electrons in the first `k` shells together. */
  function PlacedBefore(electrons: nat, k: nat): nat
    requires k <= |Capacities|
  {
    if k == 0 then 0 else PlacedBefore(electrons, k - 1) + ShellCount(electrons, k - 1)
  }

  /** The first `k` shells hold as many electrons as there are, up to their joint capacity. */
  lemma {:induction false} PlacedBeforeIsCapped(electrons: nat, k: nat)
    requires k <= |Capacities|
    ensures PlacedBefore(electrons, k) == Min(electrons, CapacityBefore(k))
  {
    if k > 0 {
      PlacedBeforeIsCapped(electrons, k - 1);
    }
  }

  /** Shells past the last entry of the distribution receive no electron. */
  lemma ShellsPastDistributionEmpty(electrons: nat, k: nat)
    requires ShellsUsed(electrons) <= k < |Capacities|
    ensures ShellCount(electrons, k) == 0
  {
  }

  /** The distribution places min(electrons, 60): electrons past the fourth shell are dropped. */
  lemma {:induction false} DistributionTotal(electrons: nat)
    ensures Seqs.Sum(Distribution(electrons)) == Min(electrons, MaxPlaced)
  {
    var d := Distribution(electrons);
    forall k | 0 <= k <= |d|
      ensures Seqs.Sum(d[..k]) == PlacedBefore(electrons, k)
    {
      SumPrefix(electrons, d, k);
    }
    assert d[..|d|] == d;
    PlacedBeforeIsCapped(electrons, |d|);
    PlacedBeforeIsCapped(electrons, |Capacities|);
    var n := |d|;
    forall k | n <= k < |Capacities|
      ensures ShellCount(electrons, k) == 0
    {
      ShellsPastDistributionEmpty(electrons, k);
    }
    assert PlacedBefore(electrons, |Capacities|) == PlacedBefore(electrons, n) by {
      PlacedBeyondUnchanged(electrons, n, |Capacities|);
    }
  }

  lemma {:induction false} SumPrefix(electrons: nat, d: seq<nat>, k: nat)
    requires d == Distribution(electrons)
    requires k <= |d|
    ensures Seqs.Sum(d[..k]) == PlacedBefore(electrons, k)
  {
    if k > 0 {
      SumPrefix(electrons, d, k - 1);
      assert d[..k][..k - 1] == d[..k - 1];
    }
  }

  lemma {:induction false} PlacedBeyondUnchanged(electrons: nat, n: nat, k: nat)
    requires n <= k <= |Capacities|
    requires forall j :: n <= j < |Capacities| ==> ShellCount(electrons, j) == 0
    ensures PlacedBefore(electrons, k) == PlacedBefore(electrons, n)
  {
    if k > n {
      PlacedBeyondUnchanged(electrons, n, k - 1);
    }
  }

  /** The worked cases: carbon's 6 electrons, neon's 10, calcium's 20, and 70 capped at 60. */
  lemma DistributionExamples()
    ensures Distribution(6) == [2, 4]
    ensures Distribution(10) == [2, 8]
    ensures Distribution(20) == [2, 8, 10]
    ensures Distribution(70) == [2, 8, 18, 32]
  {
  }

  /**
   * The kinds of the nucleus particles of the 2D picture, by particle index: the
   * first `protons` indices are protons, the rest neutrons.
   */
  function NucleusKinds(protons: nat, neutrons: nat): (kinds: seq<ParticleKind>)
    ensures |kinds| == protons + neutrons
    ensures forall i :: 0 <= i < |kinds| ==> kinds[i] != Electron
    ensures forall i :: 0 <= i < |kinds| ==> (kinds[i] == Proton <==> i < protons)
  {
    seq(protons + neutrons, i => if i < protons then Proton else Neutron)
  }

  /** Exactly `protons` nucleus particles are protons and exactly `neutrons` are neutrons. */
  lemma {:induction false} NucleusKindCounts(protons: nat, neutrons: nat)
    ensures multiset(NucleusKinds(protons, neutrons))[Proton] == protons
    ensures multiset(NucleusKinds(protons, neutrons))[Neutron] == neutrons
    ensures multiset(NucleusKinds(protons, neutrons))[Electron] == 0
  {
    if neutrons > 0 {
      NucleusKindCounts(protons, neutrons - 1);
      assert NucleusKinds(protons, neutrons) == NucleusKinds(protons, neutrons - 1) + [Neutron];
    } else if protons > 0 {
      NucleusKindCounts(protons - 1, 0);
      assert NucleusKinds(protons, 0) == NucleusKinds(protons - 1, 0) + [Proton];
    }
  }
}
