/** Vocabulary shared by every part of the simulation: the window's size,
    two-component vectors (SFML's Vector2f, here with exact real coordinates),
    the snapshot of held keys that one frame reads, and an optional value. */
module Scene {

  /** The window is 1800 by 1000 logical units (Main.cpp:107-108). */
  const Width: int := 1800
  const Height: int := 1000

  datatype Vec = Vec(x: real, y: real)

  function Add(a: Vec, b: Vec): Vec {
    Vec(a.x + b.x, a.y + b.y)
  }

  /** The key flags one frame reads: the arrows, Z (cast lightning),
      S (shoot flames) and Space (aim instead of walking). In Main.cpp:226-290
      the flags are whatever the last handled event read, so when no event
      is handled in a frame they carry over from an earlier frame; the
      snapshot stands for those carried values. One snapshot (plus the
      `polled` flag of the frame) cannot express two events in one frame
      that see Z first released and then held (Main.cpp:266-274), which
      would re-arm seeding and seed in that same frame. */
  datatype Keys = Keys(left: bool, right: bool, up: bool, down: bool,
                       z: bool, s: bool, space: bool)

  datatype Option<T> = None | Some(value: T)
}
