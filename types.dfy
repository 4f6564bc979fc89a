/** The two closed vocabularies of the controller: its states and the
    messages that travel through the inbox. The program spells both as
    free strings; here they are enumerations, and `StateName` /
    `MessageText` give back the exact strings so that the string
    comparisons of the program can be read as datatype equality. */
module Types {

  /** The four states (`states`, fsm.py:44). */
  datatype State = Start | Warm | Ready | Snap

  /** Every value the inbox `msg` and the message half of a `[cur, msg]`
      pair can hold: the bootstrap message "START", the three classifier
      outcomes, the transient bodies' "null", and the empty inbox "". */
  datatype Message = StartSignal | ShortPress | LongPress | Null | NoPress | Empty

  datatype Option<T> = None | Some(value: T)

  function StateName(s: State): (name: string)
  {
    match s
    case Start => "start"
    case Warm => "warm"
    case Ready => "ready"
    case Snap => "snap"
  }

  function MessageText(m: Message): (text: string)
  {
    match m
    case StartSignal => "START"
    case ShortPress => "shortPress"
    case LongPress => "longPress"
    case Null => "null"
    case NoPress => "noPress"
    case Empty => ""
  }

  /** Comparing the strings, as the program does, is comparing the
      enumeration values; in particular `msg != ""` means `m != Empty`. */
  lemma MessageTextFaithful(m: Message, m': Message)
    ensures MessageText(m) == MessageText(m') <==> m == m'
    ensures MessageText(m) == "" <==> m == Empty
  {
  }

  lemma StateNameFaithful(s: State, s': State)
    ensures StateName(s) == StateName(s') <==> s == s'
  {
  }
}
