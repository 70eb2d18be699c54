/** The lightning effect: a pool of ten bolt slots, each an ordered trail of
    points. A press of Z seeds the first empty slot at the character's centre;
    from the first press on, every frame extends each live bolt by a random
    walk step, clears a bolt whose newest point leaves the window, and keeps
    at most the seventy newest points of each (Main.cpp:146-151, 352-368,
    399-431). */
module Lightning {
  import opened Scene

  const SlotCount: nat := 10
  const MaxPoints: nat := 70

  /** One bolt: its points, oldest first. An empty bolt is a free slot. */
  type Bolt = seq<Vec>

  /** A value returned by rndm(): uniform over 0..20 inclusive (Main.cpp:18). */
  type Roll = r: int | 0 <= r <= 20

  /** Every bolt of the pool holds at most MaxPoints points. */
  predicate Capped(s: seq<Bolt>) {
    forall i :: 0 <= i < |s| ==> |s[i]| <= MaxPoints
  }

  /** The index of the first empty slot, if any. */
  function FirstEmpty(s: seq<Bolt>): (r: Option<nat>)
    ensures r.Some? ==> r.value < |s| && s[r.value] == []
    ensures r.Some? ==> forall j :: 0 <= j < r.value ==> s[j] != []
    ensures r.None? <==> forall j :: 0 <= j < |s| ==> s[j] != []
  {
    if s == [] then None
    else if s[0] == [] then Some(0)
    else match FirstEmpty(s[1..]) {
      case None => None
      case Some(k) => Some(k + 1)
    }
  }

  /** The slots after a seeding press: the first empty slot, and only that
      one, receives the single point `center`. */
  function SeedSlots(s: seq<Bolt>, center: Vec): (r: seq<Bolt>)
    ensures |r| == |s|
    ensures forall j :: 0 <= j < |s| ==>
      r[j] == if s[j] == [] && (forall i :: 0 <= i < j ==> s[i] != []) then [center] else s[j]
    ensures (forall j :: 0 <= j < |s| ==> s[j] != []) ==> r == s
  {
    match FirstEmpty(s) {
      case None => s
      case Some(k) => s[k := [center]]
    }
  }

  /** One axis of the random walk: rndm() - 10, moved 5 towards the negative
      side when `minus` is held and 5 towards the positive side when `plus`
      is held (Main.cpp:406-415). */
  function AxisStep(roll: Roll, minus: bool, plus: bool): (d: int)
    ensures -15 <= d <= 15
    ensures minus == plus ==> -10 <= d <= 10
    ensures minus && !plus ==> -15 <= d <= 5
    ensures plus && !minus ==> -5 <= d <= 15
  {
    var d := roll - 10;
    var d := if minus then d - 5 else d;
    if plus then d + 5 else d
  }

  /** The offset a bolt grows by: Left/Right bias x, Up/Down bias y. */
  function Step(rolls: (Roll, Roll), k: Keys): (v: Vec)
    ensures -15.0 <= v.x <= 15.0 && -15.0 <= v.y <= 15.0
  {
    Vec(AxisStep(rolls.0, k.left, k.right) as real, AxisStep(rolls.1, k.up, k.down) as real)
  }

  /** A point outside the window rectangle [0,Width] x [0,Height]; points on
      its border are inside (Main.cpp:420). */
  predicate Outside(p: Vec) {
    p.x > Width as real || p.x < 0.0 || p.y > Height as real || p.y < 0.0
  }

  /** The point a growth step appends: the bolt's last point plus `step`. */
  function NewPoint(b: Bolt, step: Vec): Vec
    requires b != []
  {
    Add(b[|b| - 1], step)
  }

  /** One live bolt after one growth step (Main.cpp:405-428): the new point
      is pushed, the whole bolt is cleared if that point is outside the
      window, and otherwise the oldest point is dropped once more than
      MaxPoints remain. */
  function GrowBolt(b: Bolt, step: Vec): (r: Bolt)
    requires b != []
    ensures r == [] <==> Outside(NewPoint(b, step))
    ensures r != [] <==>
      0.0 <= NewPoint(b, step).x <= Width as real && 0.0 <= NewPoint(b, step).y <= Height as real
    ensures |b| <= MaxPoints ==> |r| <= MaxPoints
    ensures !Outside(NewPoint(b, step)) ==> r[|r| - 1] == NewPoint(b, step)
    ensures !Outside(NewPoint(b, step)) && |b| < MaxPoints ==> r == b + [NewPoint(b, step)]
    ensures !Outside(NewPoint(b, step)) && |b| == MaxPoints ==> r == b[1..] + [NewPoint(b, step)]
  {
    var addition := NewPoint(b, step);
    var pushed := b + [addition];
    var kept := if Outside(addition) then [] else pushed;
    if |kept| > MaxPoints then kept[1..] else kept
  }

  /** The whole pool after one growth frame: each live slot grows with its own
      pair of draws; empty slots stay empty. */
  function Grown(s: seq<Bolt>, rolls: seq<(Roll, Roll)>, k: Keys): (r: seq<Bolt>)
    requires |rolls| == |s|
    ensures |r| == |s|
    ensures Capped(s) ==> Capped(r)
    ensures forall i :: 0 <= i < |s| && s[i] == [] ==> r[i] == []
  {
    seq(|s|, i requires 0 <= i < |s| =>
      if s[i] == [] then [] else GrowBolt(s[i], Step(rolls[i], k)))
  }

  /** Growth keeps the length cap, never extends an empty slot, and either
      clears a live slot or ends it with its freshly appended point. */
  lemma GrownSlots(s: seq<Bolt>, rolls: seq<(Roll, Roll)>, k: Keys)
    requires |rolls| == |s| && Capped(s)
    ensures Capped(Grown(s, rolls, k))
    ensures forall i :: 0 <= i < |s| && s[i] == [] ==> Grown(s, rolls, k)[i] == []
    ensures forall i :: 0 <= i < |s| && s[i] != [] ==>
      var r := Grown(s, rolls, k)[i];
      (r == [] <==> Outside(NewPoint(s[i], Step(rolls[i], k)))) &&
      (r != [] ==> r[|r| - 1] == NewPoint(s[i], Step(rolls[i], k)))
  {
  }

  /** The slots after one frame's lightning bookkeeping: seeding when Z is
      held and seeding is armed, then growth if lightning has ever been
      launched (including by this frame's Z). */
  function FrameSlots(s: seq<Bolt>, armed: bool, launched: bool, k: Keys, center: Vec,
                      rolls: seq<(Roll, Roll)>): (r: seq<Bolt>)
    requires |rolls| == |s|
    ensures |r| == |s|
    ensures Capped(s) ==> Capped(r)
    ensures !k.z && !launched ==> r == s
  {
    var seeded := if k.z && armed then SeedSlots(s, center) else s;
    if launched || k.z then Grown(seeded, rolls, k) else seeded
  }

  /** A slot seeded in a frame is extended in that same frame: it ends the
      frame with exactly the centre and one step away from it, or empty if
      that step left the window. */
  lemma SeededThenGrown(s: seq<Bolt>, center: Vec, rolls: seq<(Roll, Roll)>, k: Keys)
    requires |rolls| == |s| && FirstEmpty(s).Some?
    ensures var i := FirstEmpty(s).value;
      var r := Grown(SeedSlots(s, center), rolls, k)[i];
      r == (if Outside(Add(center, Step(rolls[i], k))) then []
            else [center, Add(center, Step(rolls[i], k))])
  {
  }

  /** The slot pool and its two flags: `zUp` (Z has been seen released since
      the last seeding) and `launched` (Z was pressed at least once; it is
      never reset). */
  class BoltPool {
    var slots: array<Bolt>
    var zUp: bool
    var launched: bool

    ghost predicate Valid()
      reads this, slots
    {
      slots.Length == SlotCount && Capped(slots[..])
    }

    /** Ten empty slots, both flags down (Main.cpp:146-151, 184, 189). */
    constructor ()
      ensures Valid() && fresh(slots)
      ensures forall i :: 0 <= i < slots.Length ==> slots[i] == []
      ensures !zUp && !launched
    {
      slots := new Bolt[SlotCount](_ => []);
      zUp, launched := false, false;
    }

    /** Reading the Z key while handling an event: seeing it released re-arms
        seeding (Main.cpp:266-274). */
    method ReadZ(zHeld: bool)
      modifies this`zUp
      ensures zUp == (old(zUp) || !zHeld)
    {
      if !zHeld {
        zUp := true;
      }
    }

    /** Z held this frame (Main.cpp:352-368): growth is switched on for good;
        if seeding is armed, the first empty slot receives `center` and
        seeding is disarmed. With every slot in use nothing changes and
        seeding stays armed. */
    method Seed(center: Vec)
      requires Valid()
      modifies this, slots
      ensures Valid() && slots == old(slots) && launched
      ensures slots[..] == if old(zUp) then SeedSlots(old(slots[..]), center) else old(slots[..])
      ensures zUp == (old(zUp) && FirstEmpty(old(slots[..])).None?)
    {
      launched := true;
      if zUp {
        var i := 0;
        while i < slots.Length
          invariant 0 <= i <= slots.Length
          invariant forall j :: 0 <= j < i ==> slots[j] != []
          invariant zUp && slots[..] == old(slots[..])
        {
          if slots[i] == [] {
            zUp := false;
            slots[i] := [center];
            break;
          }
          i := i + 1;
        }
      }
    }

    /** One growth frame over every slot, in slot order (Main.cpp:399-431);
        `rolls[i]` are the two draws rndm() makes for slot i. */
    method Grow(rolls: seq<(Roll, Roll)>, k: Keys)
      requires Valid() && |rolls| == SlotCount
      modifies slots
      ensures Valid()
      ensures slots[..] == Grown(old(slots[..]), rolls, k)
    {
      for i := 0 to slots.Length
        invariant forall j :: 0 <= j < i ==> slots[j] == Grown(old(slots[..]), rolls, k)[j]
        invariant forall j :: i <= j < slots.Length ==> slots[j] == old(slots[j])
      {
        if slots[i] != [] {
          slots[i] := GrowBolt(slots[i], Step(rolls[i], k));
        }
      }
      GrownSlots(old(slots[..]), rolls, k);
    }

    /** The lightning part of one frame: seeding when Z is held, then growth
        once lightning has ever been launched, so that a slot seeded in this
        frame already grows in it. `center` is the character's centre as it
        was before this frame's move. */
    method Frame(k: Keys, center: Vec, rolls: seq<(Roll, Roll)>)
      requires Valid() && |rolls| == SlotCount
      modifies this, slots
      ensures Valid() && slots == old(slots)
      ensures launched == (old(launched) || k.z)
      ensures slots[..] == FrameSlots(old(slots[..]), old(zUp), old(launched), k, center, rolls)
      ensures zUp == (old(zUp) && !(k.z && FirstEmpty(old(slots[..])).Some?))
    {
      if k.z {
        Seed(center);
      }
      if launched {
        Grow(rolls, k);
      }
    }
  }
}
