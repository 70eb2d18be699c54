/** One frame of the main loop (Main.cpp:208-530) with rendering, clocks and
    key polling taken out: the key snapshot, the character's vertical
    position and every random or trigonometric value arrive as inputs. */
module Simulation {
  import opened Scene
  import Lightning
  import Player
  import Particles

  /** C++'s conversion of a float to int: the fractional part is dropped,
      rounding towards zero (Main.cpp:293-294). */
  function TruncToInt(r: real): (n: int)
    ensures r >= 0.0 ==> n as real <= r < n as real + 1.0
    ensures r < 0.0 ==> n as real - 1.0 < r <= n as real
  {
    if r >= 0.0 then r.Floor else -((-r).Floor)
  }

  /** The fuel list after an optional shot from `origin`. */
  function Fired(fs: seq<Particles.Fuel>, fired: bool, origin: Vec, dirs: seq<Vec>): (r: seq<Particles.Fuel>)
    requires |dirs| == 3
    ensures |r| == |fs| + (if fired then 3 else 0)
    ensures r[..|fs|] == fs
  {
    if fired then fs + Particles.Volley(origin, dirs) else fs
  }

  /** The character's height in units (Main.cpp:122). */
  const CharacterHeight: int := 40

  class Game {
    var hero: Player.Character
    var bolts: Lightning.BoltPool
    var flames: Particles.Flames

    ghost predicate Valid()
      reads this, hero, bolts, bolts.slots, flames
    {
      hero.Valid() && bolts.Valid() && flames.Valid()
    }

    constructor ()
      ensures Valid() && fresh(hero) && fresh(bolts) && fresh(bolts.slots) && fresh(flames)
      ensures hero.x == Player.InitialX && hero.angle == 0.0 && !hero.jumping
      ensures bolts.slots.Length == Lightning.SlotCount
      ensures forall i :: 0 <= i < bolts.slots.Length ==> bolts.slots[i] == []
      ensures !bolts.zUp && !bolts.launched
      ensures flames.fuel == [] && flames.spawned == [] && flames.smoke == []
    {
      hero := new Player.Character();
      bolts := new Lightning.BoltPool();
      flames := new Particles.Flames();
    }

    /** The lightning part of a frame: re-arming on a polled Z release, then
        seeding and growth around `center`. */
    method Cast(k: Keys, polled: bool, center: Vec, rolls: seq<(Lightning.Roll, Lightning.Roll)>)
      requires bolts.Valid() && |rolls| == Lightning.SlotCount
      modifies bolts, bolts.slots
      ensures bolts.Valid() && bolts.slots == old(bolts.slots)
      ensures bolts.slots[..] == Lightning.FrameSlots(old(bolts.slots[..]),
        old(bolts.zUp) || (polled && !k.z), old(bolts.launched), k, center, rolls)
      ensures bolts.launched == (old(bolts.launched) || k.z)
      ensures bolts.zUp == ((old(bolts.zUp) || (polled && !k.z))
        && !(k.z && Lightning.FirstEmpty(old(bolts.slots[..])).Some?))
    {
      if polled {
        bolts.ReadZ(k.z);
      }
      bolts.Frame(k, center, rolls);
    }

    /** The flame part of a frame: an optional shot from `origin`, then one
        particle tick. */
    method Burn(fired: bool, origin: Vec, shootDirs: seq<Vec>, childDirs: seq<Vec>)
      requires flames.Valid() && |shootDirs| == 3
      requires |childDirs| == |flames.fuel| + (if fired then 3 else 0)
      modifies flames
      ensures flames.Valid()
      ensures flames.fuel == Particles.NextFuel(Fired(old(flames.fuel), fired, origin, shootDirs), childDirs)
      ensures flames.smoke == Particles.NextSmoke(old(flames.smoke))
    {
      if fired {
        flames.Shoot(origin, shootDirs);
      }
      flames.Tick(childDirs);
    }

    /** One frame. `polled` says whether the event loop handled an event this
        frame (keys, and the Z re-arming, are only read there); `landed` is
        the outcome of the landing test of Main.cpp:343; `y` is the
        character's vertical position; `rolls`, `shootDirs` and `childDirs`
        are the random-walk draws, the three fanned shooting directions and
        the spread children's directions; `shootGate` is the microsecond
        delay of Main.cpp:388. Both the bolt seed and the shooting origin use
        the character's position from before this frame's move; the shooting
        origin is truncated to whole units, the bolt seed is not. */
    method Frame(k: Keys, polled: bool, landed: bool, y: real, rolls: seq<(Lightning.Roll, Lightning.Roll)>,
                 shootGate: bool, shootDirs: seq<Vec>, childDirs: seq<Vec>)
      requires Valid()
      requires |rolls| == Lightning.SlotCount && |shootDirs| == 3
      requires |childDirs| == |flames.fuel| + (if k.s && shootGate then 3 else 0)
      modifies hero, bolts, bolts.slots, flames
      ensures Valid() && bolts.slots == old(bolts.slots)
      ensures hero.x == Player.NextX(old(hero.x), k)
      ensures hero.angle == Player.NextAngle(old(hero.angle), k)
      ensures hero.jumping == ((old(hero.jumping) || (!k.space && k.up)) && !landed)
      ensures bolts.slots[..] == Lightning.FrameSlots(old(bolts.slots[..]),
        old(bolts.zUp) || (polled && !k.z), old(bolts.launched), k,
        Vec(old(hero.x) as real + 20.0, y + 20.0), rolls)
      ensures bolts.launched == (old(bolts.launched) || k.z)
      ensures bolts.zUp == ((old(bolts.zUp) || (polled && !k.z))
        && !(k.z && Lightning.FirstEmpty(old(bolts.slots[..])).Some?))
      ensures flames.fuel == Particles.NextFuel(Fired(old(flames.fuel), k.s && shootGate,
        Vec((old(hero.x) + 20) as real, TruncToInt(y + 20.0) as real), shootDirs), childDirs)
      ensures flames.smoke == Particles.NextSmoke(old(flames.smoke))
    {
      var curPos := Vec(hero.x as real, y);
      var centerX := hero.x + Player.CharacterWidth / 2;
      var centerY := TruncToInt(y + (CharacterHeight / 2) as real);
      var seedPoint := Vec(curPos.x + (Player.CharacterWidth / 2) as real, curPos.y + (CharacterHeight / 2) as real);
      assert seedPoint == Vec(old(hero.x) as real + 20.0, y + 20.0);
      ghost var slotsBefore := bolts.slots[..];
      hero.Step(k, landed);
      assert bolts.slots[..] == slotsBefore;
      Cast(k, polled, seedPoint, rolls);
      ghost var slotsAfter := bolts.slots[..];
      Burn(k.s && shootGate, Vec(centerX as real, centerY as real), shootDirs, childDirs);
      assert bolts.slots[..] == slotsAfter;
    }
  }
}
