/** The flame and smoke particles (Main.cpp:22-70, 370-397, 462-521). Each
    tick every fuel particle either ignites (ignition below 1) or burns;
    a burning particle whose spread passes 1 spawns one child, collected
    aside and appended after the pass; then particles out of material and
    smoke out of radius are culled, keeping the order of the rest. */
module Particles {
  import opened Scene
  import opened Seqs

  /** Where a fuel particle is and how it moves: position, direction,
      force and the factor the force decays by. */
  datatype Motion = Motion(pos: Vec, dir: Vec, force: real, forceMultiplier: real)

  /** A fuel particle (Main.cpp:22-37): the three scalars of its fire
      state and its motion. */
  datatype Fuel = Fuel(material: real, ignition: real, spread: real, motion: Motion)

  /** A smoke particle (Main.cpp:39-48). */
  datatype Smoke = Smoke(pos: Vec, radius: real)

  /** A particle as the shoot key emits it: the constructor's defaults,
      full material, not yet ignited (Main.cpp:32, 394). */
  function Emitted(pos: Vec, dir: Vec): (f: Fuel)
    ensures Sound(f) && Igniting(f) && !Spawns(f)
    ensures f.motion.pos == pos && f.motion.dir == dir
  {
    Fuel(1.0, 0.0, 0.0, Motion(pos, dir, 1.0, 0.9995))
  }

  /** The three particles one shot emits, at `center` offset by each of
      the fanned directions, in order (Main.cpp:391-395). */
  function Volley(center: Vec, dirs: seq<Vec>): (r: seq<Fuel>)
    requires |dirs| == 3
    ensures |r| == 3
    ensures forall i :: 0 <= i < 3 ==>
      r[i].motion.pos == Add(center, dirs[i]) && r[i].motion.dir == dirs[i] && Igniting(r[i]) && Sound(r[i])
  {
    seq(3, i requires 0 <= i < 3 => Emitted(Add(center, dirs[i]), dirs[i]))
  }

  /** The cull predicate for fuel (Main.cpp:50-53). A culled particle would
      stay culled by any further tick, and the cull is the only part of
      soundness ticks can break. */
  function HasNoMaterial(f: Fuel): (dead: bool)
    ensures dead ==> StepFuel(f).material < 0.0
    ensures dead ==> !Sound(f)
    ensures !dead && 0.0 <= f.spread <= 1.0 && f.ignition >= 0.0 ==> Sound(f)
  {
    f.material < 0.0
  }

  /** The cull predicate for smoke (Main.cpp:56-59). Smoke that is culled
      would stay culled by any further tick. */
  function RadiusBelowZero(s: Smoke): (dead: bool)
    ensures dead ==> StepSmoke(s).radius < 0.0
  {
    s.radius < 0.0
  }

  predicate Igniting(f: Fuel) {
    f.ignition < 1.0
  }

  /** A burning particle spawns a child in the tick its spread passes 1
      (Main.cpp:481-482). */
  predicate Spawns(f: Fuel) {
    !Igniting(f) && f.spread + 0.03 > 1.0
  }

  /** The motion both regimes share: move half a force-scaled direction,
      then decay the force and its multiplier (Main.cpp:469-473, 489-491). */
  function Advance(m: Motion): (r: Motion)
    ensures r.dir == m.dir
    ensures 0.0 <= m.force && 0.0 <= m.forceMultiplier <= 1.0 ==>
      0.0 <= r.force <= m.force && 0.0 <= r.forceMultiplier <= m.forceMultiplier
  {
    ScaledDown(m.force, m.forceMultiplier);
    Motion(Add(m.pos, Vec(m.dir.x * m.force * 0.5, m.dir.y * m.force * 0.5)),
           m.dir, m.force * m.forceMultiplier, m.forceMultiplier * 0.9999)
  }

  /** Scaling by a factor in [0, 1] never increases a non-negative value. */
  lemma ScaledDown(a: real, c: real)
    ensures 0.0 <= a && 0.0 <= c <= 1.0 ==> 0.0 <= a * c <= a
  {
    assert a - a * c == a * (1.0 - c);
  }

  /** A particle's own change over one tick (Main.cpp:464-492). */
  function StepFuel(f: Fuel): (r: Fuel)
    ensures r.material <= f.material && r.ignition >= f.ignition
    ensures Igniting(f) ==>
      r.ignition == f.ignition + 0.1 && r.material == f.material && r.spread == f.spread
    ensures !Igniting(f) ==>
      r.ignition == f.ignition && r.material == f.material - 0.01
    ensures !Igniting(f) ==> r.spread == if Spawns(f) then 0.0 else f.spread + 0.03
    ensures Spawns(f) ==> !Spawns(r)
    ensures 0.0 <= f.spread <= 1.0 ==> 0.0 <= r.spread <= 1.0
    ensures r.motion == Advance(f.motion)
  {
    if Igniting(f) then
      f.(ignition := f.ignition + 0.1, motion := Advance(f.motion))
    else
      var spread := f.spread + 0.03;
      f.(spread := if spread > 1.0 then 0.0 else spread, material := f.material - 0.01,
         motion := Advance(f.motion))
  }

  /** The child a spawning particle adds: born burning with half material,
      at the parent's position before this tick's move and with the
      parent's force and multiplier before this tick's decay
      (Main.cpp:486). */
  function Child(parent: Fuel, dir: Vec): (c: Fuel)
    ensures Sound(c) && !Igniting(c) && !Spawns(c) && !HasNoMaterial(c)
    ensures c.motion.pos == parent.motion.pos && c.motion.dir == dir
    ensures c.motion.force == parent.motion.force
    ensures c.motion.forceMultiplier == parent.motion.forceMultiplier
  {
    Fuel(0.5, 1.0, 0.0, Motion(parent.motion.pos, dir, parent.motion.force, parent.motion.forceMultiplier))
  }

  /** Every particle advanced by one tick, in place and in order. */
  function Stepped(fs: seq<Fuel>): (r: seq<Fuel>)
    ensures |r| == |fs|
    ensures forall i :: 0 <= i < |fs| ==>
      r[i].material <= fs[i].material && r[i].ignition >= fs[i].ignition
    ensures forall i :: 0 <= i < |fs| && Sound(fs[i]) ==>
      0.0 <= r[i].spread <= 1.0 && r[i].ignition >= 0.0 && r[i].material >= fs[i].material - 0.01
  {
    seq(|fs|, i requires 0 <= i < |fs| => StepFuel(fs[i]))
  }

  /** The children one pass collects, in spawn order; `dirs[i]` is the
      direction the trigonometric formula gives particle i's child. */
  function Children(fs: seq<Fuel>, dirs: seq<Vec>): (r: seq<Fuel>)
    requires |dirs| == |fs|
    ensures |r| == SpawnCount(fs) <= |fs|
    ensures forall i :: 0 <= i < |r| ==>
      r[i].material == 0.5 && r[i].ignition == 1.0 && r[i].spread == 0.0
    decreases |fs|
  {
    if fs == [] then []
    else
      var n := |fs| - 1;
      Children(fs[..n], dirs[..n]) + (if Spawns(fs[n]) then [Child(fs[n], dirs[n])] else [])
  }

  /** Taking one more particle of a pass adds its child, if any, at the end. */
  lemma ChildrenSnoc(fs: seq<Fuel>, dirs: seq<Vec>, i: nat)
    requires |dirs| == |fs| && i < |fs|
    ensures Children(fs[..i + 1], dirs[..i + 1]) ==
      Children(fs[..i], dirs[..i]) + (if Spawns(fs[i]) then [Child(fs[i], dirs[i])] else [])
  {
    assert fs[..i + 1][..i] == fs[..i];
    assert dirs[..i + 1][..i] == dirs[..i];
  }

  /** How many particles of `fs` spawn a child this tick. */
  function SpawnCount(fs: seq<Fuel>): nat
    decreases |fs|
  {
    if fs == [] then 0
    else SpawnCount(fs[..|fs| - 1]) + (if Spawns(fs[|fs| - 1]) then 1 else 0)
  }

  /** The fuel list after one tick: the stepped particles, then their
      children, with every particle out of material removed. */
  function NextFuel(fs: seq<Fuel>, dirs: seq<Vec>): (r: seq<Fuel>)
    requires |dirs| == |fs|
    ensures |r| <= |fs| + SpawnCount(fs)
    ensures forall i :: 0 <= i < |r| ==> r[i].material >= 0.0
  {
    Without(Stepped(fs) + Children(fs, dirs), HasNoMaterial)
  }

  /** The list's shape after a tick: the surviving old particles in their
      order, followed by every child in spawn order; no child is culled in
      its birth tick, and a stepped particle is removed exactly when its
      material fell below 0. */
  lemma NextFuelShape(fs: seq<Fuel>, dirs: seq<Vec>)
    requires |dirs| == |fs|
    ensures NextFuel(fs, dirs) == Without(Stepped(fs), HasNoMaterial) + Children(fs, dirs)
    ensures |NextFuel(fs, dirs)| <= |fs| + SpawnCount(fs)
  {
    WithoutConcat(Stepped(fs), Children(fs, dirs), HasNoMaterial);
    WithoutNoneDead(Children(fs, dirs), HasNoMaterial);
  }

  /** A particle in good standing: material left, spread within [0, 1],
      ignition not negative. */
  predicate Sound(f: Fuel) {
    f.material >= 0.0 && 0.0 <= f.spread <= 1.0 && f.ignition >= 0.0
  }

  /** Ticks keep every particle sound. */
  lemma NextFuelSound(fs: seq<Fuel>, dirs: seq<Vec>)
    requires |dirs| == |fs| && forall i :: 0 <= i < |fs| ==> Sound(fs[i])
    ensures forall i :: 0 <= i < |NextFuel(fs, dirs)| ==> Sound(NextFuel(fs, dirs)[i])
  {
    var pre := Stepped(fs) + Children(fs, dirs);
    forall i | 0 <= i < |NextFuel(fs, dirs)|
      ensures Sound(NextFuel(fs, dirs)[i])
    {
      var f := NextFuel(fs, dirs)[i];
      assert f in NextFuel(fs, dirs);
      WithoutMember(pre, HasNoMaterial, f);
      var j :| 0 <= j < |pre| && pre[j] == f;
      if j >= |fs| {
        assert f == Children(fs, dirs)[j - |fs|];
      }
    }
  }

  /** A particle's state after `n` ticks of its own transition. */
  function StepN(f: Fuel, n: nat): Fuel
    decreases n
  {
    if n == 0 then f else StepFuel(StepN(f, n - 1))
  }

  /** A freshly emitted particle (ignition 0) ignites for exactly ten ticks,
      gaining 0.1 each, and keeps its material meanwhile. */
  lemma {:induction false} IgnitionRamp(f: Fuel, n: nat)
    requires f.ignition == 0.0 && n <= 10
    ensures StepN(f, n).ignition == n as real / 10.0
    ensures StepN(f, n).material == f.material
    ensures Igniting(StepN(f, n)) <==> n < 10
  {
    if n > 0 {
      IgnitionRamp(f, n - 1);
    }
  }

  /** The smoke transition: rise by 0.25, shrink by 0.01 (Main.cpp:507-508). */
  function StepSmoke(s: Smoke): (r: Smoke)
    ensures r.radius < s.radius && r.pos.y < s.pos.y && r.pos.x == s.pos.x
  {
    Smoke(Vec(s.pos.x, s.pos.y - 0.25), s.radius - 0.01)
  }

  /** The smoke list after one tick: every particle stepped, those whose
      radius fell below 0 removed, order kept. */
  function NextSmoke(ss: seq<Smoke>): (r: seq<Smoke>)
    ensures |r| <= |ss|
    ensures forall i :: 0 <= i < |r| ==> r[i].radius >= 0.0
  {
    Without(seq(|ss|, i requires 0 <= i < |ss| => StepSmoke(ss[i])), RadiusBelowZero)
  }

  /** The smoke cull keeps a stepped particle exactly when its radius is
      still at least 0, and keeps nothing else. */
  lemma NextSmokeKeeps(ss: seq<Smoke>)
    ensures |NextSmoke(ss)| <= |ss|
    ensures forall i :: 0 <= i < |ss| ==>
      (StepSmoke(ss[i]) in NextSmoke(ss) <==> StepSmoke(ss[i]).radius >= 0.0)
    ensures forall s :: s in NextSmoke(ss) ==>
      s.radius >= 0.0 && exists i :: 0 <= i < |ss| && s == StepSmoke(ss[i])
  {
    var stepped := seq(|ss|, i requires 0 <= i < |ss| => StepSmoke(ss[i]));
    forall s ensures s in NextSmoke(ss) <==> s in stepped && !RadiusBelowZero(s) {
      WithoutMember(stepped, RadiusBelowZero, s);
    }
    forall i | 0 <= i < |ss| ensures StepSmoke(ss[i]) in stepped {
      assert stepped[i] == StepSmoke(ss[i]);
    }
  }

  /** Squared distance below 100, that is Euclidean distance below 10. */
  predicate Near(center: Vec, p: Vec) {
    (p.x - center.x) * (p.x - center.x) + (p.y - center.y) * (p.y - center.y) < 100.0
  }

  /** The test numberOfNeighbors makes, sqrt(d) < 10, agrees with d < 100 for
      the non-negative square root of a squared distance. */
  lemma RootBelowTen(d: real, root: real)
    requires root >= 0.0 && root * root == d
    ensures root < 10.0 <==> d < 100.0
  {
    if root < 10.0 {
      assert root * root <= root * 10.0;
      assert root * 10.0 < 100.0;
    } else {
      assert root * root >= root * 10.0;
      assert root * 10.0 >= 100.0;
    }
  }

  /** How many particles of `fs` lie within distance 10 of `center`. */
  function NeighborCount(center: Vec, fs: seq<Fuel>): (n: nat)
    ensures n <= |fs|
    decreases |fs|
  {
    if fs == [] then 0
    else NeighborCount(center, fs[..|fs| - 1]) + (if Near(center, fs[|fs| - 1].motion.pos) then 1 else 0)
  }

  /** A particle counts itself: when `center` is the position of one of the
      particles the count is at least one, which is why its caller
      subtracts one (Main.cpp:493). */
  lemma {:induction false} NeighborCountSelf(center: Vec, fs: seq<Fuel>, i: nat)
    requires i < |fs| && fs[i].motion.pos == center
    ensures NeighborCount(center, fs) >= 1
    decreases |fs|
  {
    if i < |fs| - 1 {
      NeighborCountSelf(center, fs[..|fs| - 1], i);
    }
  }

  /** numberOfNeighbors (Main.cpp:61-70): one pass counting the particles
      within distance 10 of `center`. */
  method NumberOfNeighbors(center: Vec, neighbors: seq<Fuel>) returns (n: int)
    ensures n == NeighborCount(center, neighbors)
    ensures 0 <= n <= |neighbors|
  {
    n := 0;
    for i := 0 to |neighbors|
      invariant n == NeighborCount(center, neighbors[..i])
    {
      assert neighbors[..i + 1][..i] == neighbors[..i];
      if Near(center, neighbors[i].motion.pos) {
        n := n + 1;
      }
    }
    assert neighbors[..|neighbors|] == neighbors;
  }

  /** The body of the pass over the fuel list for one particle
      (Main.cpp:464-498), field by field in the source's order; `child` is
      the particle it spawns, if any. */
  method UpdateParticle(f: Fuel, dir: Vec) returns (g: Fuel, child: Option<Fuel>)
    ensures g == StepFuel(f)
    ensures child == if Spawns(f) then Some(Child(f, dir)) else None
  {
    g, child := f, None;
    if g.ignition < 1.0 {
      g := g.(motion := Advance(g.motion));
      g := g.(ignition := g.ignition + 0.1);
    } else {
      g := g.(spread := g.spread + 0.03);
      if g.spread > 1.0 {
        g := g.(spread := 0.0);
        child := Some(Child(g, dir));
      }
      g := g.(motion := Advance(g.motion));
      g := g.(material := g.material - 0.01);
    }
  }

  /** The live particle lists. `spawned` is the side buffer children are
      collected in during a pass over `fuel` (fuelSpreadVector); it is empty
      between ticks. */
  class Flames {
    var fuel: seq<Fuel>
    var spawned: seq<Fuel>
    var smoke: seq<Smoke>

    ghost predicate Valid()
      reads this
    {
      spawned == [] &&
      (forall i :: 0 <= i < |fuel| ==> Sound(fuel[i])) &&
      (forall i :: 0 <= i < |smoke| ==> smoke[i].radius >= 0.0)
    }

    constructor ()
      ensures Valid() && fuel == [] && spawned == [] && smoke == []
    {
      fuel, spawned, smoke := [], [], [];
    }

    /** Shooting (Main.cpp:391-395): three fresh particles at `center` offset
        by their directions, appended in order; `dirs` are the three fanned
        directions of the trigonometric formula. */
    method Shoot(center: Vec, dirs: seq<Vec>)
      requires Valid() && |dirs| == 3
      modifies this
      ensures Valid() && spawned == old(spawned) && smoke == old(smoke)
      ensures fuel == old(fuel) + Volley(center, dirs)
    {
      for i := 0 to 3
        invariant Valid() && spawned == old(spawned) && smoke == old(smoke)
        invariant fuel == old(fuel) + Volley(center, dirs)[..i]
      {
        assert Volley(center, dirs)[..i + 1] == Volley(center, dirs)[..i] + [Emitted(Add(center, dirs[i]), dirs[i])];
        fuel := fuel + [Emitted(Add(center, dirs[i]), dirs[i])];
      }
      assert Volley(center, dirs)[..3] == Volley(center, dirs);
    }

    /** The pass over the fuel list (Main.cpp:462-499): each particle is
        updated in place; children go to the side buffer. */
    method UpdateFuel(dirs: seq<Vec>)
      requires |dirs| == |fuel|
      modifies this
      ensures fuel == Stepped(old(fuel)) && smoke == old(smoke)
      ensures spawned == old(spawned) + Children(old(fuel), dirs)
    {
      ghost var fs, buf := fuel, spawned;
      for i := 0 to |fuel|
        invariant |fuel| == |fs| && smoke == old(smoke)
        invariant forall j :: 0 <= j < i ==> fuel[j] == StepFuel(fs[j])
        invariant forall j :: i <= j < |fuel| ==> fuel[j] == fs[j]
        invariant spawned == buf + Children(fs[..i], dirs[..i])
      {
        ChildrenSnoc(fs, dirs, i);
        var f, child := UpdateParticle(fuel[i], dirs[i]);
        if child.Some? {
          spawned := spawned + [child.value];
        }
        fuel := fuel[i := f];
      }
      assert fs[..|fs|] == fs;
      assert dirs[..|dirs|] == dirs;
    }

    /** Appending the collected children and emptying the side buffer
        (Main.cpp:500-501). */
    method MergeSpawned()
      modifies this
      ensures fuel == old(fuel) + old(spawned) && spawned == [] && smoke == old(smoke)
    {
      fuel := fuel + spawned;
      spawned := [];
    }

    /** The pass over the smoke list (Main.cpp:503-512). */
    method UpdateSmoke()
      modifies this
      ensures smoke == seq(|old(smoke)|, i requires 0 <= i < |old(smoke)| => StepSmoke(old(smoke)[i]))
      ensures fuel == old(fuel) && spawned == old(spawned)
    {
      for i := 0 to |smoke|
        invariant |smoke| == |old(smoke)| && fuel == old(fuel) && spawned == old(spawned)
        invariant forall j :: 0 <= j < i ==> smoke[j] == StepSmoke(old(smoke)[j])
        invariant forall j :: i <= j < |smoke| ==> smoke[j] == old(smoke)[j]
      {
        var s := smoke[i];
        s := s.(pos := Add(s.pos, Vec(0.0, -0.25)));
        s := s.(radius := s.radius - 0.01);
        smoke := smoke[i := s];
      }
    }

    /** Both culls (Main.cpp:515-521). */
    method Cull()
      modifies this
      ensures fuel == Without(old(fuel), HasNoMaterial)
      ensures smoke == Without(old(smoke), RadiusBelowZero)
      ensures spawned == old(spawned)
    {
      fuel := RemoveIf(fuel, HasNoMaterial);
      smoke := RemoveIf(smoke, RadiusBelowZero);
    }

    /** One tick of the particle simulation (Main.cpp:462-521); `dirs[i]`
        is the direction particle i's child would take. */
    method Tick(dirs: seq<Vec>)
      requires Valid() && |dirs| == |fuel|
      modifies this
      ensures Valid()
      ensures fuel == NextFuel(old(fuel), dirs)
      ensures smoke == NextSmoke(old(smoke))
    {
      ghost var fs := fuel;
      UpdateFuel(dirs);
      MergeSpawned();
      UpdateSmoke();
      assert fuel == Stepped(fs) + Children(fs, dirs);
      Cull();
      assert fuel == NextFuel(fs, dirs);
      NextFuelSound(fs, dirs);
    }
  }
}
