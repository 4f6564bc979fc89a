/** The press classifier of `buttonReleased` (fsm.py:114-122): a press
    duration becomes one of three messages by two strict thresholds. */
module Classifier {
  import opened Types

  /** Thresholds in seconds (fsm.py:42). */
  const ShortPressTime: real := 0.1
  const LongPressTime: real := 1.2

  /** The messages the classifier can produce. */
  predicate IsPress(m: Message)
  {
    m == LongPress || m == ShortPress || m == NoPress
  }

  /** fsm.py:119-121: strict `>` against the long threshold first, then the
      short one; everything else, zero and negative durations included, is
      `noPress`. */
  function Classify(downtime: real): (m: Message)
    ensures IsPress(m)
  {
    if downtime > LongPressTime then LongPress
    else if downtime > ShortPressTime then ShortPress
    else NoPress
  }

  /** The three bands, each as an if-and-only-if. */
  lemma ClassifyBands(d: real)
    ensures Classify(d) == LongPress <==> d > 1.2
    ensures Classify(d) == ShortPress <==> 0.1 < d <= 1.2
    ensures Classify(d) == NoPress <==> d <= 0.1
  {
  }

  /** How strong a press is: noPress < shortPress < longPress. */
  function Strength(m: Message): (rank: nat)
  {
    match m
    case LongPress => 2
    case ShortPress => 1
    case _ => 0
  }

  /** Holding the button longer never yields a weaker message. */
  lemma ClassifyMonotone(d1: real, d2: real)
    requires d1 <= d2
    ensures Strength(Classify(d1)) <= Strength(Classify(d2))
  {
  }

  /** The boundary values belong to the lower band; the sample durations
      fall where the thresholds put them. */
  lemma ClassifyBoundaries()
    ensures Classify(1.2) == ShortPress && Classify(0.1) == NoPress
    ensures Classify(0.0) == NoPress && Classify(-0.5) == NoPress
    ensures Classify(0.05) == NoPress && Classify(0.5) == ShortPress && Classify(2.0) == LongPress
  {
  }
}
