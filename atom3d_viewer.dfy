/**
 * The 3D atom viewer (components/Atom3DViewer.tsx): the particle list it builds
 * when the counts change, the depth-ordered frame it draws, and the rotation,
 * zoom and drag state its handlers update. Trigonometry is abstracted: a
 * nucleon keeps its random radius, an electron its shell, its fraction of a
 * full turn and its z, and each drawn particle's depth is supplied.
 */
module Atom3DViewer {
  import opened Types
  import Sorting
  import AtomCanvas

  /** Radii of the four drawn orbits. */
  const ShellRadii: seq<nat> := [60, 100, 150, 210]

  datatype Particle3D =
    | Nucleon(kind: ParticleKind, radius: real)
      /** An electron at angle 2·π·turn on orbit `orbitRadius`, in the plane at height `z`. */
    | ShellElectron(shellIndex: nat, turn: real, orbitRadius: nat, z: real)
  {
    function KindOf(): ParticleKind {
      match this
      case Nucleon(k, _) => k
      case ShellElectron(_, _, _, _) => Electron
    }
  }

  /** Values of `Math.random()`: each in [0, 1). */
  ghost predicate ValidJitter(jitter: seq<real>) {
    forall i :: 0 <= i < |jitter| ==> 0.0 <= jitter[i] < 1.0
  }

  /**
   * The nucleus: one particle per nucleon, tagged as in the 2D picture, at radius
   * 15 + 5·jitter, so inside the shell [15, 20) around the centre.
   */
  function NucleusLayout(protons: nat, neutrons: nat, jitter: seq<real>): (ps: seq<Particle3D>)
    requires |jitter| == protons + neutrons
    requires ValidJitter(jitter)
    ensures |ps| == protons + neutrons
    ensures forall i :: 0 <= i < |ps| ==> ps[i].Nucleon? && 15.0 <= ps[i].radius < 20.0
    ensures forall i :: 0 <= i < |ps| ==> ps[i].kind == (if i < protons then Proton else Neutron)
  {
    var kinds := AtomCanvas.NucleusKinds(protons, neutrons);
    seq(protons + neutrons, i requires 0 <= i < protons + neutrons => Nucleon(kinds[i], 15.0 + jitter[i] * 5.0))
  }

  /** The electrons of shell `k`, evenly spaced: the i-th of `count` at a turn of i/count. */
  function ShellRun(electrons: nat, k: nat): seq<Particle3D>
    requires k < |AtomCanvas.Capacities|
  {
    var count := AtomCanvas.ShellCount(electrons, k);
    seq(count, i requires 0 <= i < count => ShellElectron(k, (i as real) / (count as real), ShellRadii[k], 0.0))
  }

  /** The electrons of the first `k` shells, shell by shell. */
  function ShellsUpTo(electrons: nat, k: nat): seq<Particle3D>
    requires k <= |AtomCanvas.Capacities|
  {
    if k == 0 then [] else ShellsUpTo(electrons, k - 1) + ShellRun(electrons, k - 1)
  }

  /** All electrons of the viewer. */
  function ShellLayout(electrons: nat): seq<Particle3D> {
    ShellsUpTo(electrons, |AtomCanvas.Capacities|)
  }

  /**
   * The particle-generation effect: the nucleus first, then for each shell
   * `min(remaining, cap)` electrons, skipping a shell that gets none.
   * `jitter` supplies the values `Math.random()` returns, one per nucleon.
   */
  method GenerateParticles(protons: nat, neutrons: nat, electrons: nat, jitter: seq<real>)
    returns (particles: seq<Particle3D>)
    requires |jitter| == protons + neutrons
    requires ValidJitter(jitter)
    ensures particles == NucleusLayout(protons, neutrons, jitter) + ShellLayout(electrons)
  {
    particles := [];
    var totalNucleus := protons + neutrons;
    ghost var nucleus := NucleusLayout(protons, neutrons, jitter);
    for i := 0 to totalNucleus
      invariant particles == nucleus[..i]
    {
      var radius := 15.0 + jitter[i] * 5.0;
      particles := particles + [Nucleon(if i < protons then Proton else Neutron, radius)];
    }
    var remainingElectrons: int := electrons;
    for shellIdx := 0 to |AtomCanvas.Capacities|
      invariant remainingElectrons == AtomCanvas.Max(electrons - AtomCanvas.CapacityBefore(shellIdx), 0)
      invariant particles == nucleus + ShellsUpTo(electrons, shellIdx)
    {
      var cap := AtomCanvas.Capacities[shellIdx];
      var count := AtomCanvas.Min(remainingElectrons, cap);
      if count > 0 {
        ghost var run := ShellRun(electrons, shellIdx);
        for i := 0 to count
          invariant particles == nucleus + ShellsUpTo(electrons, shellIdx) + run[..i]
        {
          var angle := (i as real) / (count as real);
          particles := particles + [ShellElectron(shellIdx, angle, ShellRadii[shellIdx], 0.0)];
        }
        assert run[..count] == run;
        remainingElectrons := remainingElectrons - count;
      }
    }
  }

  /** Electrons of shell `k` within `ps`. */
  function CountInShell(ps: seq<Particle3D>, k: nat): nat {
    if ps == [] then 0
    else
      var last := ps[|ps| - 1];
      CountInShell(ps[..|ps| - 1], k) + if last.ShellElectron? && last.shellIndex == k then 1 else 0
  }

  lemma {:induction false} CountInShellAppend(a: seq<Particle3D>, b: seq<Particle3D>, k: nat)
    ensures CountInShell(a + b, k) == CountInShell(a, k) + CountInShell(b, k)
    decreases |b|
  {
    if b == [] {
      assert a + b == a;
    } else {
      CountInShellAppend(a, b[..|b| - 1], k);
      assert (a + b)[..|a + b| - 1] == a + b[..|b| - 1];
      assert (a + b)[|a + b| - 1] == b[|b| - 1];
    }
  }

  /** A sequence that is all on shell `k`, or has nothing on it, counts all or none. */
  lemma {:induction false} CountInShellUniform(ps: seq<Particle3D>, k: nat, onShell: bool)
    requires forall i :: 0 <= i < |ps| ==> (ps[i].ShellElectron? && ps[i].shellIndex == k) == onShell
    ensures CountInShell(ps, k) == if onShell then |ps| else 0
  {
    if ps != [] {
      CountInShellUniform(ps[..|ps| - 1], k, onShell);
    }
  }

  /** The electrons of one shell sit at distinct turns i/count, all in [0, 1). */
  lemma ShellRunTurns(electrons: nat, k: nat)
    requires k < |AtomCanvas.Capacities|
    ensures forall i :: 0 <= i < |ShellRun(electrons, k)| ==> 0.0 <= ShellRun(electrons, k)[i].turn < 1.0
    ensures forall i, j :: 0 <= i < j < |ShellRun(electrons, k)| ==>
      ShellRun(electrons, k)[i].turn < ShellRun(electrons, k)[j].turn
  {
    var run := ShellRun(electrons, k);
    var count := AtomCanvas.ShellCount(electrons, k);
    forall i | 0 <= i < |run|
      ensures 0.0 <= run[i].turn < 1.0
    {
      assert run[i].turn == (i as real) / (count as real);
      TurnInRange(i, count);
    }
    forall i, j | 0 <= i < j < |run|
      ensures run[i].turn < run[j].turn
    {
      assert run[i].turn == (i as real) / (count as real);
      assert run[j].turn == (j as real) / (count as real);
      TurnsIncrease(i, j, count);
    }
  }

  lemma TurnInRange(i: nat, count: nat)
    requires i < count
    ensures 0.0 <= (i as real) / (count as real) < 1.0
  {
    var c := count as real;
    assert (i as real) / c * c == i as real;
  }

  lemma TurnsIncrease(i: nat, j: nat, count: nat)
    requires i < j < count
    ensures (i as real) / (count as real) < (j as real) / (count as real)
  {
    var c := count as real;
    assert (j as real) / c - (i as real) / c == ((j - i) as real) / c;
    assert ((j - i) as real) / c * c == (j - i) as real;
  }

  /**
   * The first `k` shells' electrons: all electrons, on shells below `k`, on their
   * shell's orbit at z = 0, at a turn in [0, 1), and in non-decreasing shell order.
   */
  lemma {:induction false} ShellsUpToShape(electrons: nat, k: nat)
    requires k <= |AtomCanvas.Capacities|
    ensures forall i :: 0 <= i < |ShellsUpTo(electrons, k)| ==>
      var p := ShellsUpTo(electrons, k)[i];
      && p.ShellElectron? && p.shellIndex < k && p.z == 0.0
      && p.orbitRadius == ShellRadii[p.shellIndex] && 0.0 <= p.turn < 1.0
    ensures forall i, j :: 0 <= i < j < |ShellsUpTo(electrons, k)| ==>
      ShellsUpTo(electrons, k)[i].shellIndex <= ShellsUpTo(electrons, k)[j].shellIndex
  {
    if k > 0 {
      ShellsUpToShape(electrons, k - 1);
      ShellRunTurns(electrons, k - 1);
      var front: seq<Particle3D>, run: seq<Particle3D> := ShellsUpTo(electrons, k - 1), ShellRun(electrons, k - 1);
      assert ShellsUpTo(electrons, k) == front + run;
      forall i | 0 <= i < |front + run|
        ensures (front + run)[i].ShellElectron? && (front + run)[i].shellIndex < k
      {
        if i >= |front| {
          assert (front + run)[i] == run[i - |front|];
        }
      }
    }
  }

  /** The first `k` shells hold min(electrons, capacity of those shells) electrons. */
  lemma {:induction false} ShellsUpToSize(electrons: nat, k: nat)
    requires k <= |AtomCanvas.Capacities|
    ensures |ShellsUpTo(electrons, k)| == AtomCanvas.Min(electrons, AtomCanvas.CapacityBefore(k))
  {
    ShellsUpToCount(electrons, k);
    AtomCanvas.PlacedBeforeIsCapped(electrons, k);
  }

  lemma {:induction false} ShellsUpToCount(electrons: nat, k: nat)
    requires k <= |AtomCanvas.Capacities|
    ensures |ShellsUpTo(electrons, k)| == AtomCanvas.PlacedBefore(electrons, k)
  {
    if k > 0 {
      ShellsUpToCount(electrons, k - 1);
    }
  }

  /** Shell `j` of the viewer holds ShellCount(electrons, j) electrons for j < k, and none beyond. */
  lemma {:induction false} ShellsUpToOccupancy(electrons: nat, k: nat, j: nat)
    requires k <= |AtomCanvas.Capacities|
    ensures CountInShell(ShellsUpTo(electrons, k), j) ==
      if j < k then AtomCanvas.ShellCount(electrons, j) else 0
  {
    if k > 0 {
      ShellsUpToOccupancy(electrons, k - 1, j);
      CountInShellAppend(ShellsUpTo(electrons, k - 1), ShellRun(electrons, k - 1), j);
      CountInShellUniform(ShellRun(electrons, k - 1), j, j == k - 1);
    }
  }

  /**
   * What the generation effect builds: p + n nucleons, first the protons, then
   * min(electrons, 60) electrons in non-decreasing shell order, and on each shell
   * k exactly the min(max(electrons - capacity before k, 0), capacity of k)
   * electrons of the left-to-right fill.
   */
  lemma GeneratedParticles(protons: nat, neutrons: nat, electrons: nat, jitter: seq<real>)
    requires |jitter| == protons + neutrons
    requires ValidJitter(jitter)
    ensures var ps := NucleusLayout(protons, neutrons, jitter) + ShellLayout(electrons);
      && |ps| == protons + neutrons + AtomCanvas.Min(electrons, AtomCanvas.MaxPlaced)
      && (forall i :: 0 <= i < |ps| ==> (ps[i].Nucleon? <==> i < protons + neutrons))
      && (forall i :: 0 <= i < |ps| ==> (ps[i].KindOf() == Proton <==> i < protons))
      && (forall i :: 0 <= i < |ps| ==> (ps[i].KindOf() == Neutron <==> protons <= i < protons + neutrons))
      && (forall i, j :: protons + neutrons <= i < j < |ps| ==> ps[i].shellIndex <= ps[j].shellIndex)
      && (forall k :: 0 <= k < |AtomCanvas.Capacities| ==>
            CountInShell(ps, k) == AtomCanvas.ShellCount(electrons, k))
  {
    var nucleus, shells := NucleusLayout(protons, neutrons, jitter), ShellLayout(electrons);
    var ps := nucleus + shells;
    var m := protons + neutrons;
    ShellsUpToShape(electrons, |AtomCanvas.Capacities|);
    ShellsUpToSize(electrons, |AtomCanvas.Capacities|);
    forall i | 0 <= i < |ps|
      ensures (ps[i].Nucleon? <==> i < m) && (ps[i].KindOf() == Proton <==> i < protons)
      ensures ps[i].KindOf() == Neutron <==> protons <= i < m
    {
      if i >= m {
        assert ps[i] == shells[i - m];
      }
    }
    forall i, j | m <= i < j < |ps|
      ensures ps[i].shellIndex <= ps[j].shellIndex
    {
      assert ps[i] == shells[i - m] && ps[j] == shells[j - m];
    }
    forall k | 0 <= k < |AtomCanvas.Capacities|
      ensures CountInShell(ps, k) == AtomCanvas.ShellCount(electrons, k)
    {
      CountInShellAppend(nucleus, shells, k);
      CountInShellUniform(nucleus, k, false);
      ShellsUpToOccupancy(electrons, |AtomCanvas.Capacities|, k);
    }
  }

  /** The kind of every particle of a list, in order. */
  function KindsOf(ps: seq<Particle3D>): (ks: seq<ParticleKind>)
    ensures |ks| == |ps|
    ensures forall i :: 0 <= i < |ps| ==> ks[i] == ps[i].KindOf()
  {
    seq(|ps|, i requires 0 <= i < |ps| => ps[i].KindOf())
  }

  /** A list of `n` electrons has `n` electrons and nothing else. */
  lemma {:induction false} AllElectronsCount(ks: seq<ParticleKind>)
    requires forall i :: 0 <= i < |ks| ==> ks[i] == Electron
    ensures multiset(ks)[Electron] == |ks|
    ensures multiset(ks)[Proton] == 0 && multiset(ks)[Neutron] == 0
  {
    if ks != [] {
      AllElectronsCount(ks[1..]);
      assert ks == [ks[0]] + ks[1..];
    }
  }

  /**
   * The viewer shows exactly `protons` protons, `neutrons` neutrons and
   * min(electrons, 60) electrons.
   */
  lemma GeneratedKindCounts(protons: nat, neutrons: nat, electrons: nat, jitter: seq<real>)
    requires |jitter| == protons + neutrons
    requires ValidJitter(jitter)
    ensures var ks := KindsOf(NucleusLayout(protons, neutrons, jitter) + ShellLayout(electrons));
      && multiset(ks)[Proton] == protons
      && multiset(ks)[Neutron] == neutrons
      && multiset(ks)[Electron] == AtomCanvas.Min(electrons, AtomCanvas.MaxPlaced)
  {
    var nucleus, shells := NucleusLayout(protons, neutrons, jitter), ShellLayout(electrons);
    ShellsUpToShape(electrons, |AtomCanvas.Capacities|);
    ShellsUpToSize(electrons, |AtomCanvas.Capacities|);
    assert KindsOf(nucleus + shells) == AtomCanvas.NucleusKinds(protons, neutrons) + KindsOf(shells);
    AtomCanvas.NucleusKindCounts(protons, neutrons);
    AllElectronsCount(KindsOf(shells));
  }

  /**
   * The 2D picture and the 3D viewer put the same number of electrons on every
   * shell: the viewer's count on shell k is the canvas distribution's entry k,
   * and zero for a shell the distribution does not reach.
   */
  lemma CanvasAndViewerAgree(electrons: nat, k: nat)
    requires k < |AtomCanvas.Capacities|
    ensures var d := AtomCanvas.Distribution(electrons);
      CountInShell(ShellLayout(electrons), k) == if k < |d| then d[k] else 0
  {
    ShellsUpToOccupancy(electrons, |AtomCanvas.Capacities|, k);
    if k >= AtomCanvas.ShellsUsed(electrons) {
      AtomCanvas.ShellsPastDistributionEmpty(electrons, k);
    }
  }

  // ---------------------------------------------------------------------------
  // The drawn frame

  /** A particle as drawn: its kind, its depth after rotation, its size before perspective and zoom, its opacity. */
  datatype ProjectedParticle = ProjectedParticle(kind: ParticleKind, depth: real, baseSize: real, opacity: real)

  /** Opacity grows linearly with depth, but never drops below the floor 0.2. */
  function Opacity(depth: real): (o: real)
    ensures o >= 0.2
    ensures o >= (depth + 250.0) / 500.0
    ensures o == 0.2 || o == (depth + 250.0) / 500.0
  {
    var linear := (depth + 250.0) / 500.0;
    if 0.2 >= linear then 0.2 else linear
  }

  /** Drawn sizes before perspective and zoom. */
  const ElectronSize: real := 4.0
  const NucleonSize: real := 6.0

  /** One particle projected at the depth the rotation gives it: electrons are drawn smaller than nucleons. */
  function Project(p: Particle3D, depth: real): (q: ProjectedParticle)
    ensures q.kind == p.KindOf() && q.depth == depth && q.opacity >= 0.2
    ensures q.kind == Electron <==> q.baseSize < NucleonSize
  {
    ProjectedParticle(p.KindOf(), depth, if p.KindOf() == Electron then ElectronSize else NucleonSize, Opacity(depth))
  }

  /** The frame's comparator `(a, b) => a.pz - b.pz`: `a` may stay ahead of `b` when it is not deeper. */
  predicate DepthOrder(a: ProjectedParticle, b: ProjectedParticle) {
    a.depth <= b.depth
  }

  lemma DepthOrderIsTotalPreorder()
    ensures Sorting.TotalPreorder(DepthOrder)
  {
  }

  /** The particles projected in list order, before sorting. */
  function Projected(particles: seq<Particle3D>, depths: seq<real>): (ps: seq<ProjectedParticle>)
    requires |depths| == |particles|
  {
    seq(|particles|, i requires 0 <= i < |particles| => Project(particles[i], depths[i]))
  }

  /**
   * One animation frame: each particle projected at its depth, sorted back to
   * front. `depths[i]` is the depth rotation gives particle i.
   */
  function ProjectFrame(particles: seq<Particle3D>, depths: seq<real>): (frame: seq<ProjectedParticle>)
    requires |depths| == |particles|
    ensures |frame| == |particles|
    ensures multiset(frame) == multiset(Projected(particles, depths))
    ensures forall i, j :: 0 <= i < j < |frame| ==> frame[i].depth <= frame[j].depth
  {
    var unsorted := Projected(particles, depths);
    DepthOrderIsTotalPreorder();
    Sorting.SortSorted(DepthOrder, unsorted);
    Sorting.Sort(DepthOrder, unsorted)
  }

  /** Every drawn particle keeps an opacity of at least 0.2 and is the projection of some particle at its depth. */
  lemma {:induction false} FrameOpacityFloor(particles: seq<Particle3D>, depths: seq<real>)
    requires |depths| == |particles|
    ensures forall q :: q in ProjectFrame(particles, depths) ==>
      q.opacity >= 0.2 && exists i :: 0 <= i < |particles| && q == Project(particles[i], depths[i])
  {
    var frame := ProjectFrame(particles, depths);
    var unsorted := Projected(particles, depths);
    forall q | q in frame
      ensures q.opacity >= 0.2 && exists i :: 0 <= i < |particles| && q == Project(particles[i], depths[i])
    {
      assert q in multiset(frame);
      assert q in multiset(unsorted);
      var i :| 0 <= i < |unsorted| && unsorted[i] == q;
      assert q == Project(particles[i], depths[i]);
    }
  }

  // ---------------------------------------------------------------------------
  // Rotation, zoom and drag

  const MinZoom: real := 0.5
  const MaxZoom: real := 2.0
  /** Zoom change per press of the + or - button. */
  const ZoomButtonStep: real := 0.1
  /** Zoom change per unit of wheel delta. */
  const WheelZoomRate: real := 0.001
  /** Rotation, in radians, per pixel of pointer movement while dragging. */
  const DragRate: real := 0.01

  /** The point of [MinZoom, MaxZoom] nearest to `t`. */
  function ClampZoom(t: real): (z: real)
    ensures t <= MinZoom ==> z == MinZoom
    ensures MaxZoom <= t ==> z == MaxZoom
    ensures MinZoom <= t <= MaxZoom ==> z == t
  {
    var below := if MaxZoom <= t then MaxZoom else t;
    if MinZoom >= below then MinZoom else below
  }

  /** The inputs that change zoom: a wheel event, and the + and - buttons. */
  datatype ZoomInput = Wheel(deltaY: real) | ZoomInButton | ZoomOutButton

  /** The zoom after one input, as the wheel handler and the two buttons compute it. */
  function ApplyZoom(zoom: real, input: ZoomInput): (z: real)
    ensures MinZoom <= zoom <= MaxZoom ==> MinZoom <= z <= MaxZoom
  {
    match input
    case Wheel(deltaY) => ClampZoom(zoom - deltaY * WheelZoomRate)
    case ZoomInButton => if MaxZoom <= zoom + ZoomButtonStep then MaxZoom else zoom + ZoomButtonStep
    case ZoomOutButton => if MinZoom >= zoom - ZoomButtonStep then MinZoom else zoom - ZoomButtonStep
  }

  function ZoomAfter(zoom: real, inputs: seq<ZoomInput>): real
    decreases |inputs|
  {
    if inputs == [] then zoom else ZoomAfter(ApplyZoom(zoom, inputs[0]), inputs[1..])
  }

  /** From any zoom in [0.5, 2] (the initial 1 among them), no sequence of inputs leaves [0.5, 2]. */
  lemma {:induction false} ZoomStaysInRange(zoom: real, inputs: seq<ZoomInput>)
    requires MinZoom <= zoom <= MaxZoom
    ensures MinZoom <= ZoomAfter(zoom, inputs) <= MaxZoom
    decreases |inputs|
  {
    if inputs != [] {
      ZoomStaysInRange(ApplyZoom(zoom, inputs[0]), inputs[1..]);
    }
  }

  /** An input that can only zoom out: a wheel turn with non-negative delta, or the - button. */
  predicate ZoomsOut(input: ZoomInput) {
    input.ZoomOutButton? || (input.Wheel? && input.deltaY >= 0.0)
  }

  /** How far the inputs would zoom out without the floor. */
  function ZoomOutAmount(inputs: seq<ZoomInput>): real {
    if inputs == [] then 0.0
    else
      (match inputs[0]
       case Wheel(deltaY) => deltaY * WheelZoomRate
       case ZoomInButton => -ZoomButtonStep
       case ZoomOutButton => ZoomButtonStep) + ZoomOutAmount(inputs[1..])
  }

  /** Zooming out only, the floor is applied once: the result is max(0.5, zoom - total zoom-out). */
  lemma {:induction false} ZoomOutFloors(zoom: real, inputs: seq<ZoomInput>)
    requires MinZoom <= zoom <= MaxZoom
    requires forall i :: 0 <= i < |inputs| ==> ZoomsOut(inputs[i])
    ensures ZoomOutAmount(inputs) >= 0.0
    ensures ZoomAfter(zoom, inputs) == if zoom - ZoomOutAmount(inputs) <= MinZoom then MinZoom else zoom - ZoomOutAmount(inputs)
    decreases |inputs|
  {
    if inputs != [] {
      ZoomOutFloors(ApplyZoom(zoom, inputs[0]), inputs[1..]);
    }
  }

  /** Repeating one zoom-out input n times zooms out n times its step. */
  lemma {:induction false} RepeatedZoomOutAmount(input: ZoomInput, n: nat)
    ensures ZoomOutAmount(seq(n, _ => input)) == (n as real) * ZoomOutAmount([input])
  {
    if n > 0 {
      RepeatedZoomOutAmount(input, n - 1);
      assert seq(n, _ => input)[1..] == seq(n - 1, _ => input);
    }
  }

  /** Enough identical zoom-out inputs (1000 wheel notches, say) leave the zoom at exactly 0.5. */
  lemma RepeatedZoomOutBottoms(zoom: real, input: ZoomInput, n: nat)
    requires MinZoom <= zoom <= MaxZoom
    requires ZoomsOut(input)
    requires (n as real) * ZoomOutAmount([input]) >= MaxZoom - MinZoom
    ensures ZoomAfter(zoom, seq(n, _ => input)) == MinZoom
  {
    RepeatedZoomOutAmount(input, n);
    ZoomOutFloors(zoom, seq(n, _ => input));
  }

  /**
   * The viewer's interaction state: rotation about the x and y axes, zoom, the
   * dragging flag and the last pointer position seen while dragging.
   */
  class ViewState {
    var rotationX: real
    var rotationY: real
    var zoom: real
    var isDragging: bool
    var lastMouseX: real
    var lastMouseY: real

    ghost predicate Valid()
      reads this
    {
      MinZoom <= zoom <= MaxZoom
    }

    constructor ()
      ensures Valid()
      ensures rotationX == 0.0 && rotationY == 0.0 && zoom == 1.0
      ensures !isDragging && lastMouseX == 0.0 && lastMouseY == 0.0
    {
      rotationX, rotationY, zoom := 0.0, 0.0, 1.0;
      isDragging, lastMouseX, lastMouseY := false, 0.0, 0.0;
    }

    /** Pressing starts a drag from the pointer's position. */
    method MouseDown(x: real, y: real)
      requires Valid()
      modifies this
      ensures Valid()
      ensures isDragging && lastMouseX == x && lastMouseY == y
      ensures rotationX == old(rotationX) && rotationY == old(rotationY) && zoom == old(zoom)
    {
      isDragging := true;
      lastMouseX, lastMouseY := x, y;
    }

    /**
     * While dragging, vertical movement turns about the x axis and horizontal
     * movement about the y axis, 0.01 radian per pixel; otherwise nothing changes.
     */
    method MouseMove(x: real, y: real)
      requires Valid()
      modifies this
      ensures Valid()
      ensures old(isDragging) ==>
        && rotationX == old(rotationX) + (y - old(lastMouseY)) * DragRate
        && rotationY == old(rotationY) + (x - old(lastMouseX)) * DragRate
        && lastMouseX == x && lastMouseY == y
      ensures !old(isDragging) ==>
        rotationX == old(rotationX) && rotationY == old(rotationY)
        && lastMouseX == old(lastMouseX) && lastMouseY == old(lastMouseY)
      ensures zoom == old(zoom) && isDragging == old(isDragging)
    {
      if !isDragging {
        return;
      }
      var deltaX := x - lastMouseX;
      var deltaY := y - lastMouseY;
      rotationX, rotationY := rotationX + deltaY * DragRate, rotationY + deltaX * DragRate;
      lastMouseX, lastMouseY := x, y;
    }

    /** Releasing the button, or the pointer leaving the canvas, ends the drag. */
    method MouseUp()
      requires Valid()
      modifies this
      ensures Valid()
      ensures !isDragging
      ensures rotationX == old(rotationX) && rotationY == old(rotationY) && zoom == old(zoom)
      ensures lastMouseX == old(lastMouseX) && lastMouseY == old(lastMouseY)
    {
      isDragging := false;
    }

    /** The wheel handler: zoom out by 0.001 per unit of wheel delta, kept within [0.5, 2]. */
    method Wheel(deltaY: real)
      requires Valid()
      modifies this
      ensures Valid()
      ensures zoom == ApplyZoom(old(zoom), ZoomInput.Wheel(deltaY))
      ensures rotationX == old(rotationX) && rotationY == old(rotationY) && isDragging == old(isDragging)
      ensures lastMouseX == old(lastMouseX) && lastMouseY == old(lastMouseY)
    {
      zoom := ApplyZoom(zoom, ZoomInput.Wheel(deltaY));
    }

    /** The + button: zoom in by 0.1, at most to 2. */
    method ZoomIn()
      requires Valid()
      modifies this
      ensures Valid()
      ensures zoom == ApplyZoom(old(zoom), ZoomInButton)
      ensures rotationX == old(rotationX) && rotationY == old(rotationY) && isDragging == old(isDragging)
      ensures lastMouseX == old(lastMouseX) && lastMouseY == old(lastMouseY)
    {
      zoom := ApplyZoom(zoom, ZoomInButton);
    }

    /** The - button: zoom out by 0.1, at least to 0.5. */
    method ZoomOut()
      requires Valid()
      modifies this
      ensures Valid()
      ensures zoom == ApplyZoom(old(zoom), ZoomOutButton)
      ensures rotationX == old(rotationX) && rotationY == old(rotationY) && isDragging == old(isDragging)
      ensures lastMouseX == old(lastMouseX) && lastMouseY == old(lastMouseY)
    {
      zoom := ApplyZoom(zoom, ZoomOutButton);
    }

    /**
     * The reset button: rotation back to (0, 0) and zoom to 1, whatever they were.
     * The result does not depend on the prior rotation or zoom, so resetting twice
     * is resetting once.
     */
    method ResetView()
      requires Valid()
      modifies this
      ensures Valid()
      ensures rotationX == 0.0 && rotationY == 0.0 && zoom == 1.0
      ensures isDragging == old(isDragging) && lastMouseX == old(lastMouseX) && lastMouseY == old(lastMouseY)
    {
      rotationX, rotationY := 0.0, 0.0;
      zoom := 1.0;
    }
  }
}
