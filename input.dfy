/**
 * The input snapshot the camera reads each frame: SDL's keyboard state array, the
 * relative mouse motion with its button mask, and the quantisation of mouse deltas.
 */
module Input {
  import opened Basics

  /** SDL's keyboard state array has one entry per scancode. */
  const ScancodeCount := 512

  const ScancodeA := 4
  const ScancodeD := 7
  const ScancodeS := 22
  const ScancodeW := 26
  const ScancodeRight := 79
  const ScancodeLeft := 80
  const ScancodeDown := 81
  const ScancodeUp := 82
  const ScancodeLShift := 225
  const ScancodeRShift := 229

  /** The array `SDL_GetKeyboardState` returns: nonzero means the key is down. */
  type Keyboard = k: seq<Byte> | |k| == ScancodeCount witness seq(ScancodeCount, _ => 0)

  predicate Held(k: Keyboard, code: nat)
    requires code < ScancodeCount
  {
    k[code] != 0
  }

  /** The same keyboard with one key let go. */
  function Release(k: Keyboard, code: nat): (r: Keyboard)
    requires code < ScancodeCount
    ensures !Held(r, code)
    ensures forall c :: 0 <= c < ScancodeCount && c != code ==> r[c] == k[c]
  {
    k[code := 0]
  }

  /** `SDL_BUTTON(X)` is `1 << (X - 1)`; left is button 1, right is button 3. */
  const ButtonLeftMask: bv32 := 1
  const ButtonRightMask: bv32 := 4

  /** What `SDL_GetRelativeMouseState` reports: motion since the last poll and the button mask. */
  datatype MouseSnapshot = MouseSnapshot(dx: int, dy: int, buttons: bv32)

  predicate LeftDown(m: MouseSnapshot) {
    m.buttons & ButtonLeftMask != 0
  }

  predicate RightDown(m: MouseSnapshot) {
    m.buttons & ButtonRightMask != 0
  }

  /** Raw motion at most this far from zero counts as no motion. */
  const Threshold := 1

  /** A raw delta collapses to a unit step in its direction, or to 0 within the threshold. */
  function Quantise(d: int): (q: int)
    ensures q == 1 <==> d > Threshold
    ensures q == -1 <==> d < -Threshold
    ensures q == 0 <==> -Threshold <= d <= Threshold
  {
    if d > Threshold then 1 else if d < -Threshold then -1 else 0
  }

  /** Quantisation keeps only the direction of a delta beyond the threshold, never its size. */
  lemma QuantiseIgnoresMagnitude(d: int, e: int)
    requires (d > Threshold && e > Threshold) || (d < -Threshold && e < -Threshold)
    ensures Quantise(d) == Quantise(e)
  {
  }
}
