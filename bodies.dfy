/** The four state bodies (fsm.py:60-106) as functions of the globals on
    entry and of the button edges that land while the body runs.

    Asynchrony is modelled as an interleaving: `ticks[i]` holds the edges
    that the callbacks handle during the `i`-th poll or flash of the body,
    all of them before that iteration looks at the inbox. A waiting body
    whose script runs out without a release is still polling (the program
    loops forever there); a transient body ignores ticks past its flash
    count, and a missing tick means no edges. */
module Bodies {
  import opened Types
  import opened Classifier
  import opened Button
  import opened Lights

  /** Flash counts of `warmState` and `snapState` (fsm.py:80, 104). */
  const WarmFlashes: nat := 6
  const SnapFlashes: nat := 5

  /** Pattern strings as the bodies pass them to `setLED`/`flashLED`. */
  const StartEntry := "ryb"    // fsm.py:63
  const StartBlink := "rYb"    // fsm.py:67
  const WarmPattern := "rYb"   // fsm.py:77, 81
  const ReadyPattern := "Ryb"  // fsm.py:87
  const SnapPattern := "ryB"   // fsm.py:101, 105

  /** The `[cur, msg]` list a body returns. */
  datatype Reply = Reply(state: State, message: Message)

  /** Where a waiting loop stopped: after how many iterations, with which
      globals, and whether it saw a message. */
  datatype Poll = Poll(ticks: nat, inbox: Inbox, woke: bool)

  /** What running a body did: the globals afterwards, the reply if the
      body returned, every light state it applied, in order, and how many
      ticks of the script it used. */
  datatype Outcome = Outcome(inbox: Inbox, reply: Option<Reply>, shown: seq<Leds>, used: nat)

  /** No release lands in ticks `lo` up to (excluding) `hi`. */
  predicate Quiet(ticks: seq<seq<Edge>>, lo: int, hi: int)
  {
    forall j :: lo <= j < hi && 0 <= j < |ticks| ==> !HasRelease(ticks[j])
  }

  /** The poll loop of `startState`/`readyState` (fsm.py:66-72, 90-96),
      from iteration `from` on: each iteration handles its tick's edges,
      then returns if `msg != ""`. Entered with the inbox just cleared, it
      stops at the first iteration whose edges include a release, and only
      there; resumed with a message already waiting, it stops at once. */
  function Await(b: Inbox, ticks: seq<seq<Edge>>, from: nat): (p: Poll)
    requires from <= |ticks|
    ensures from <= p.ticks <= |ticks|
    ensures p.woke ==> from < p.ticks && p.inbox.msg != Empty
    ensures !p.woke ==> p.ticks == |ticks| && p.inbox.msg == b.msg
    ensures b.msg == Empty && p.woke ==>
              HasRelease(ticks[p.ticks - 1]) && Quiet(ticks, from, p.ticks - 1) && IsPress(p.inbox.msg)
    ensures b.msg == Empty && !p.woke ==> Quiet(ticks, from, |ticks|)
    ensures b.msg != Empty && from < |ticks| ==> p.woke && p.ticks == from + 1
    ensures IsPress(b.msg) && p.woke ==> IsPress(p.inbox.msg)
    decreases |ticks| - from
  {
    if from == |ticks| then Poll(from, b, false)
    else
      var b' := DeliverAll(b, ticks[from]);
      if b'.msg != Empty then Poll(from + 1, b', true)
      else Await(b', ticks, from + 1)
  }

  function EdgesAt(ticks: seq<seq<Edge>>, i: nat): (es: seq<Edge>)
  {
    if i < |ticks| then ticks[i] else []
  }

  /** No release lands during the first `n` flashes. */
  predicate QuietFor(ticks: seq<seq<Edge>>, n: nat)
  {
    forall j :: 0 <= j < n ==> !HasRelease(EdgesAt(ticks, j))
  }

  /** The edges of the first `n` ticks, in the order they are handled. */
  function Flatten(ticks: seq<seq<Edge>>, n: nat): (es: seq<Edge>)
  {
    if n == 0 then [] else Flatten(ticks, n - 1) + EdgesAt(ticks, n - 1)
  }

  /** The globals after the first `n` flashes of a transient body
      (fsm.py:80-81, 104-105). */
  function Pulse(b: Inbox, ticks: seq<seq<Edge>>, n: nat): (r: Inbox)
    ensures r.msg == b.msg || IsPress(r.msg)
  {
    if n == 0 then b else DeliverAll(Pulse(b, ticks, n - 1), EdgesAt(ticks, n - 1))
  }

  /** Across its flashes a transient body keeps the message it wrote
      unless a release overwrote it, and then holds a classifier message. */
  lemma {:induction false} PulseMessage(b: Inbox, ticks: seq<seq<Edge>>, n: nat)
    ensures QuietFor(ticks, n) ==> Pulse(b, ticks, n).msg == b.msg
    ensures !QuietFor(ticks, n) ==> IsPress(Pulse(b, ticks, n).msg)
  {
    var i := 0;
    while i < n
      invariant i <= n
      invariant QuietFor(ticks, i) ==> Pulse(b, ticks, i).msg == b.msg
      invariant !QuietFor(ticks, i) ==> IsPress(Pulse(b, ticks, i).msg)
    {
      assert QuietFor(ticks, i + 1) <==> QuietFor(ticks, i) && !HasRelease(EdgesAt(ticks, i));
      i := i + 1;
    }
  }

  /** Across its flashes a transient body sees every edge of those ticks,
      in order. */
  lemma PulseIsFlat(b: Inbox, ticks: seq<seq<Edge>>, n: nat)
    ensures Pulse(b, ticks, n) == DeliverAll(b, Flatten(ticks, n))
  {
    var i := 0;
    while i < n
      invariant i <= n
      invariant Pulse(b, ticks, i) == DeliverAll(b, Flatten(ticks, i))
    {
      DeliverAllAppend(b, Flatten(ticks, i), EdgesAt(ticks, i));
      i := i + 1;
    }
  }

  /** A poll loop sees every edge of the ticks it ran, in order. */
  lemma {:induction false} AwaitIsFlat(b0: Inbox, ticks: seq<seq<Edge>>, from: nat)
    requires from <= |ticks|
    ensures var p := Await(DeliverAll(b0, Flatten(ticks, from)), ticks, from);
            p.inbox == DeliverAll(b0, Flatten(ticks, p.ticks))
    decreases |ticks| - from
  {
    if from < |ticks| {
      var b := DeliverAll(b0, Flatten(ticks, from));
      assert EdgesAt(ticks, from) == ticks[from];
      DeliverAllAppend(b0, Flatten(ticks, from), ticks[from]);
      if DeliverAll(b, ticks[from]).msg == Empty {
        AwaitIsFlat(b0, ticks, from + 1);
      }
    }
  }

  /** The light each state shows: yellow for `start` and `warm`, red for
      `ready`, blue for `snap`; exactly one channel each. */
  function Colour(t: State): (l: Leds)
    ensures (if l.red then 1 else 0) + (if l.yellow then 1 else 0) + (if l.blue then 1 else 0) == 1
  {
    match t
    case Start => Leds(false, true, false)
    case Warm => Leds(false, true, false)
    case Ready => Leds(true, false, false)
    case Snap => Leds(false, false, true)
  }

  /** The `while True` loop of a waiting body on its own, as run on entry
      and as resumed later: `startState` flashes on every iteration,
      `readyState` only sleeps. When it returns, it returns the body's
      own name with the message it found. */
  function PollLoop(t: State, b: Inbox, ticks: seq<seq<Edge>>): (o: Outcome)
    ensures o.reply.Some? ==> o.reply.value == Reply(t, o.inbox.msg) && o.inbox.msg != Empty
    ensures o.reply.None? ==> o.used == |ticks| && o.inbox.msg == b.msg
  {
    var p := Await(b, ticks, 0);
    Outcome(p.inbox, if p.woke then Some(Reply(t, p.inbox.msg)) else None,
            if t == Start then Flashes(Decode(StartBlink), p.ticks) else [], p.ticks)
  }

  /** Running the body of state `t` with globals `b` on entry. Every body
      returns its own name; a transient body always returns, with a
      non-empty message; a waiting body returns exactly when some tick of
      the script carries a release, and then with a classifier message. */
  function RunBody(t: State, b: Inbox, ticks: seq<seq<Edge>>): (o: Outcome)
    ensures o.reply.Some? ==> o.reply.value.state == t && o.reply.value.message == o.inbox.msg
    ensures o.reply.Some? ==> o.reply.value.message != Empty
    ensures t == Warm || t == Snap ==> o.reply.Some?
    ensures t == Start || t == Ready ==> (o.reply.Some? <==> !Quiet(ticks, 0, |ticks|))
    ensures t == Start || t == Ready ==> o.reply.Some? ==> IsPress(o.reply.value.message)
  {
    match t
    case Start =>
      var o := PollLoop(Start, b.(msg := Empty), ticks);
      o.(shown := [Decode(StartEntry)] + o.shown)
    case Warm =>
      var i := Pulse(b.(msg := Null), ticks, WarmFlashes);
      PulseMessage(b.(msg := Null), ticks, WarmFlashes);
      Outcome(i, Some(Reply(Warm, i.msg)), [Decode(WarmPattern)] + Flashes(Decode(WarmPattern), WarmFlashes), WarmFlashes)
    case Ready =>
      var o := PollLoop(Ready, b.(msg := Empty), ticks);
      o.(shown := [Decode(ReadyPattern)] + o.shown)
    case Snap =>
      var i := Pulse(b.(msg := Null), ticks, SnapFlashes);
      PulseMessage(b.(msg := Null), ticks, SnapFlashes);
      Outcome(i, Some(Reply(Snap, i.msg)), [Decode(SnapPattern)] + Flashes(Decode(SnapPattern), SnapFlashes), SnapFlashes)
  }

  /** Every body overwrites the inbox on entry (fsm.py:65, 79, 89, 103),
      so what the inbox held before has no effect on the body. */
  lemma BodyClearsInbox(t: State, b: Inbox, m: Message, ticks: seq<seq<Edge>>)
    ensures RunBody(t, b, ticks) == RunBody(t, b.(msg := m), ticks)
  {
  }

  /** The inbox round trip: a body hands on the message of the latest
      release among the edges of the ticks it ran, or, when none
      landed, the "null" a transient body wrote itself. */
  lemma RunBodyHandsOnLatest(t: State, b: Inbox, ticks: seq<seq<Edge>>)
    ensures var o := RunBody(t, b, ticks);
            var es := Flatten(ticks, o.used);
            o.reply.Some? ==> o.reply.value.message == (if HasRelease(es) then Latest(b, es) else Null)
  {
    var o := RunBody(t, b, ticks);
    var entry := b.(msg := if t == Warm || t == Snap then Null else Empty);
    assert DeliverAll(entry, Flatten(ticks, 0)) == entry;
    if t == Warm || t == Snap {
      PulseIsFlat(entry, ticks, o.used);
    } else {
      AwaitIsFlat(entry, ticks, 0);
    }
    DeliverAllIsLatest(entry, Flatten(ticks, o.used));
  }

  /** A transient body returns "null" exactly when no release landed
      during its flashes; otherwise it returns the press that did. */
  lemma TransientReply(t: State, b: Inbox, ticks: seq<seq<Edge>>)
    requires t == Warm || t == Snap
    ensures var n := if t == Warm then WarmFlashes else SnapFlashes;
            RunBody(t, b, ticks).reply.value.message == Null <==> QuietFor(ticks, n)
  {
    PulseMessage(b.(msg := Null), ticks, if t == Warm then WarmFlashes else SnapFlashes);
  }

  /** A waiting body returns at the first tick carrying a release. */
  lemma WaitingWakesAtFirstRelease(t: State, b: Inbox, ticks: seq<seq<Edge>>, k: nat)
    requires t == Start || t == Ready
    requires k < |ticks| && HasRelease(ticks[k]) && Quiet(ticks, 0, k)
    ensures RunBody(t, b, ticks).reply.Some?
    ensures var p := Await(b.(msg := Empty), ticks, 0); p.woke && p.ticks == k + 1
  {
  }

  /** The light history of each body: `warm` shows yellow and flashes it
      exactly 6 times, `snap` shows blue and flashes it exactly 5 times,
      `start` turns everything off and flashes yellow once per poll,
      `ready` shows red and leaves it. Every entry is the state's colour
      or dark; the flashing bodies end dark and `readyState` ends red. */
  lemma BodyLights(t: State, b: Inbox, ticks: seq<seq<Edge>>)
    ensures var o := RunBody(t, b, ticks);
            o.shown == match t
              case Start => [Off] + Flashes(Colour(Start), o.used)
              case Warm => [Colour(Warm)] + Flashes(Colour(Warm), WarmFlashes)
              case Ready => [Colour(Ready)]
              case Snap => [Colour(Snap)] + Flashes(Colour(Snap), SnapFlashes)
    ensures var s := RunBody(t, b, ticks).shown;
            |s| > 0 && (forall k :: 0 <= k < |s| ==> s[k] in {Colour(t), Off})
            && s[|s| - 1] == (if t == Ready then Colour(Ready) else Off)
  {
    var o := RunBody(t, b, ticks);
    match t
    case Start =>
      FlashesShape(Decode(StartBlink), o.used);
    case Warm =>
      FlashesShape(Decode(WarmPattern), WarmFlashes);
    case Ready =>
    case Snap =>
      FlashesShape(Decode(SnapPattern), SnapFlashes);
  }
}
