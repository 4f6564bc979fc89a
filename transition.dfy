/** The lookup of `jump` (fsm.py:127-144): which state body runs next for
    a `(curState, message)` pair, or `None` for the fallback branch. */
module Transition {
  import opened Types

  /** The ten listed pairs, in the order of fsm.py:130-139, with the body
      each one runs. */
  const Table: seq<(State, Message, State)> := [
    (Start, StartSignal, Start),
    (Start, ShortPress, Warm),
    (Start, LongPress, Start),
    (Warm, Null, Ready),
    (Warm, ShortPress, Start),
    (Warm, LongPress, Start),
    (Ready, ShortPress, Snap),
    (Ready, LongPress, Start),
    (Snap, Null, Ready),
    (Snap, LongPress, Start)
  ]

  /** `jump`'s if/elif chain as a match; `None` is the `else` branch of
      fsm.py:140-143, which runs no body. A long press selects
      `startState` from every state (fsm.py:132, 135, 137, 139); a
      too-short press or an empty inbox is never listed. */
  function Next(s: State, m: Message): (r: Option<State>)
    ensures m == LongPress ==> r == Some(Start)
    ensures m == NoPress || m == Empty ==> r == None
  {
    match (s, m)
    case (Start, StartSignal) => Some(Start)
    case (Start, ShortPress) => Some(Warm)
    case (Start, LongPress) => Some(Start)
    case (Warm, Null) => Some(Ready)
    case (Warm, ShortPress) => Some(Start)
    case (Warm, LongPress) => Some(Start)
    case (Ready, ShortPress) => Some(Snap)
    case (Ready, LongPress) => Some(Start)
    case (Snap, Null) => Some(Ready)
    case (Snap, LongPress) => Some(Start)
    case _ => None
  }

  predicate Listed(s: State, m: Message)
  {
    exists i :: 0 <= i < |Table| && Table[i].0 == s && Table[i].1 == m
  }

  /** No pair is listed twice, so the order of the elif chain does not
      matter. */
  lemma TableIsFunctional()
    ensures |Table| == 10
    ensures forall i, j :: 0 <= i < j < |Table| ==> Table[i].0 != Table[j].0 || Table[i].1 != Table[j].1
  {
  }

  /** Every row of the table is a branch of `Next`. */
  lemma RowsAreBranches()
    ensures forall i :: 0 <= i < |Table| ==> Next(Table[i].0, Table[i].1) == Some(Table[i].2)
  {
  }

  /** `Next` is exactly the table: a listed pair runs its body, and any
      pair not listed falls back. */
  lemma NextIsTable(s: State, m: Message, t: State)
    ensures Next(s, m) == Some(t) <==> (s, m, t) in Table
    ensures Next(s, m) == None <==> !Listed(s, m)
  {
    RowsAreBranches();
    if Next(s, m).Some? {
      var i := match (s, m)
        case (Start, StartSignal) => 0
        case (Start, ShortPress) => 1
        case (Start, LongPress) => 2
        case (Warm, Null) => 3
        case (Warm, ShortPress) => 4
        case (Warm, LongPress) => 5
        case (Ready, ShortPress) => 6
        case (Ready, LongPress) => 7
        case (Snap, Null) => 8
        case (Snap, LongPress) => 9
        case _ => 0;
      assert Table[i] == (s, m, Next(s, m).value);
    }
  }

  /** Each body other than `startState` has exactly these ways in. */
  lemma EnteredFrom(s: State, m: Message)
    ensures Next(s, m) == Some(Warm) <==> s == Start && m == ShortPress
    ensures Next(s, m) == Some(Snap) <==> s == Ready && m == ShortPress
    ensures Next(s, m) == Some(Ready) <==> m == Null && (s == Warm || s == Snap)
  {
  }
}
