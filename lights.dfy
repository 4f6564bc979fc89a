/** The three indicator lights and the pattern strings of `setLED` /
    `flashLED` (fsm.py:47-56). */
module Lights {

  /** On/off state of the red, yellow and blue channels. */
  datatype Leds = Leds(red: bool, yellow: bool, blue: bool)

  const Off := Leds(false, false, false)

  /** `setLED` (fsm.py:47-50): a channel is on exactly when its position
      holds the upper-case letter; any other character switches it off.
      The program indexes the first three characters, so shorter strings
      are outside its domain. On an upper/lower-case pattern nothing is
      lost: spelling the result gives the pattern back. */
  function Decode(ryb: string): (l: Leds)
    requires |ryb| >= 3
    ensures Canonical(ryb) ==> Spell(l) == ryb
  {
    Leds(ryb[0] == 'R', ryb[1] == 'Y', ryb[2] == 'B')
  }

  /** The canonical pattern string of a light state: upper case for on,
      lower case for off. */
  function Spell(l: Leds): (p: string)
    ensures |p| == 3
  {
    [if l.red then 'R' else 'r', if l.yellow then 'Y' else 'y', if l.blue then 'B' else 'b']
  }

  predicate Canonical(p: string)
  {
    |p| == 3 && (p[0] == 'R' || p[0] == 'r') && (p[1] == 'Y' || p[1] == 'y') && (p[2] == 'B' || p[2] == 'b')
  }

  /** Decoding is a left inverse of spelling. */
  lemma DecodeSpell(l: Leds)
    ensures Decode(Spell(l)) == l
  {
  }

  /** Among the canonical patterns, "ryb", the one `flashLED` ends with,
      is the only one that turns every channel off. */
  lemma DarkPattern(p: string)
    requires Canonical(p)
    ensures Decode(p) == Off <==> p == "ryb"
  {
  }

  /** `n` calls of `flashLED(p, ...)` (fsm.py:52-56): each applies `p` and
      then all-off, so the lights alternate and end dark. */
  function Flashes(p: Leds, n: nat): (s: seq<Leds>)
    ensures |s| == 2 * n
  {
    if n == 0 then [] else Flashes(p, n - 1) + [p, Off]
  }

  /** Flash `k` shows the pattern and then goes dark. */
  lemma {:induction false} FlashesAlternate(p: Leds, n: nat)
    ensures forall k :: 0 <= k < n ==> Flashes(p, n)[2 * k] == p && Flashes(p, n)[2 * k + 1] == Off
  {
    if n > 0 {
      FlashesAlternate(p, n - 1);
      assert forall k :: 0 <= k < n - 1 ==> Flashes(p, n)[2 * k] == Flashes(p, n - 1)[2 * k];
      assert forall k :: 0 <= k < n - 1 ==> Flashes(p, n)[2 * k + 1] == Flashes(p, n - 1)[2 * k + 1];
    }
  }

  /** Every entry of a flash sequence is the pattern or dark, and the last
      one is dark. */
  lemma FlashesShape(p: Leds, n: nat)
    ensures forall k :: 0 <= k < |Flashes(p, n)| ==> Flashes(p, n)[k] in {p, Off}
    ensures n > 0 ==> Flashes(p, n)[2 * n - 1] == Off
  {
    FlashesAlternate(p, n);
    forall k | 0 <= k < |Flashes(p, n)|
      ensures Flashes(p, n)[k] in {p, Off}
    {
      assert k == 2 * (k / 2) || k == 2 * (k / 2) + 1;
    }
  }
}
