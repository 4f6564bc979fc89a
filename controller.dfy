/** The program's mutable side: the globals `msg` and `b_t0`, the three
    LEDs and `main`'s loop variable `cur`, updated in place by the button
    callbacks, the state bodies and the loop step. Each method is proved
    against the function of module Bodies or Machine that specifies it. */
module Controller {
  import opened Types
  import opened Classifier
  import opened Button
  import opened Lights
  import opened Transition
  import opened Bodies
  import opened Machine

  class Fsm {
    var msg: Message        // global `msg`
    var bT0: real           // global `b_t0`
    var cur: State          // `main`'s `cur`
    var polling: Option<State>  // the waiting body `main` is still inside, if any
    var red: bool           // `ledr`
    var yellow: bool        // `ledy`
    var blue: bool          // `ledb`
    ghost var Shown: seq<Leds>  // every light state applied so far, in order

    function Globals(): Inbox
      reads this
    {
      Inbox(msg, bT0)
    }

    function LedState(): Leds
      reads this
    {
      Leds(red, yellow, blue)
    }

    function Current(): Config
      reads this
    {
      Config(cur, Globals(), polling)
    }

    /** Start-up of `main` (fsm.py:146-150): all lights off, `cur` is
        'start' and the first `jump` is asked about "START". */
    constructor ()
      ensures Current() == Initial
      ensures LedState() == Off && Shown == [Off]
    {
      msg, bT0, cur, polling := StartSignal, 0.0, Start, None;
      red, yellow, blue := false, false, false;
      Shown := [Off];
    }

    /** `buttonPressStart` (fsm.py:109-111). */
    method ButtonPressStart(now: real)
      modifies this`bT0
      ensures Globals() == Press(old(Globals()), now)
    {
      bT0 := now;
    }

    /** `buttonReleased` (fsm.py:114-122). */
    method ButtonReleased(now: real)
      modifies this`msg, this`bT0
      ensures Globals() == Release(old(Globals()), now)
    {
      var downtime := now - bT0;
      bT0 := 0.0;
      if downtime > LongPressTime {
        msg := LongPress;
      } else if downtime > ShortPressTime {
        msg := ShortPress;
      } else {
        msg := NoPress;
      }
    }

    /** The callbacks for the edges that land during one tick, in order. */
    method Feed(edges: seq<Edge>)
      modifies this`msg, this`bT0
      ensures Globals() == DeliverAll(old(Globals()), edges)
    {
      var i := 0;
      while i < |edges|
        invariant 0 <= i <= |edges|
        invariant DeliverAll(Globals(), edges[i..]) == DeliverAll(old(Globals()), edges)
      {
        assert edges[i..][1..] == edges[i + 1..];
        if edges[i].Pressed? {
          ButtonPressStart(edges[i].at);
        } else {
          ButtonReleased(edges[i].at);
        }
        i := i + 1;
      }
    }

    /** `setLED` (fsm.py:47-50). */
    method SetLed(ryb: string)
      requires |ryb| >= 3
      modifies this`red, this`yellow, this`blue, this`Shown
      ensures LedState() == Decode(ryb) && Shown == old(Shown) + [Decode(ryb)]
    {
      red := ryb[0] == 'R';
      yellow := ryb[1] == 'Y';
      blue := ryb[2] == 'B';
      Shown := Shown + [LedState()];
    }

    /** `flashLED` (fsm.py:52-56), without the sleeps. */
    method FlashLed(ryb: string)
      requires |ryb| >= 3
      modifies this`red, this`yellow, this`blue, this`Shown
      ensures LedState() == Off && Shown == old(Shown) + [Decode(ryb), Off]
    {
      SetLed(ryb);
      SetLed("ryb");
    }

    /** The `while True` loop of `startState` (fsm.py:66-72): each tick's
        edges, a yellow flash, then the check `msg != ""`. */
    method PollFlashing(ticks: seq<seq<Edge>>) returns (woke: bool)
      modifies this`msg, this`bT0, this`red, this`yellow, this`blue, this`Shown
      ensures var p := Await(old(Globals()), ticks, 0);
              Globals() == p.inbox && woke == p.woke
              && Shown == old(Shown) + Flashes(Decode(StartBlink), p.ticks)
              && LedState() == if p.ticks == 0 then old(LedState()) else Off
    {
      ghost var p := Await(Globals(), ticks, 0);
      var i := 0;
      while i < |ticks|
        invariant 0 <= i <= |ticks|
        invariant Await(Globals(), ticks, i) == p
        invariant Shown == old(Shown) + Flashes(Decode(StartBlink), i)
        invariant LedState() == if i == 0 then old(LedState()) else Off
      {
        Feed(ticks[i]);
        FlashLed(StartBlink);
        i := i + 1;
        if msg != Empty {
          assert p == Poll(i, Globals(), true);
          return true;
        }
      }
      return false;
    }

    /** The `while True` loop of `readyState` (fsm.py:90-96): each tick's
        edges, then the check `msg != ""`; the lights are left alone. */
    method PollSleeping(ticks: seq<seq<Edge>>) returns (woke: bool)
      modifies this`msg, this`bT0
      ensures var p := Await(old(Globals()), ticks, 0);
              Globals() == p.inbox && woke == p.woke
    {
      ghost var p := Await(Globals(), ticks, 0);
      var i := 0;
      while i < |ticks|
        invariant 0 <= i <= |ticks|
        invariant Await(Globals(), ticks, i) == p
      {
        Feed(ticks[i]);
        i := i + 1;
        if msg != Empty {
          assert p == Poll(i, Globals(), true);
          return true;
        }
      }
      return false;
    }

    /** The poll loop of waiting body `t`, entered or resumed with the
        globals as they are: it returns `[t, msg]` once a tick leaves a
        message, or runs out of script still polling. */
    method Wait(t: State, ticks: seq<seq<Edge>>) returns (r: Option<Reply>)
      modifies this`msg, this`bT0, this`red, this`yellow, this`blue, this`Shown
      ensures var o := PollLoop(t, old(Globals()), ticks);
              r == o.reply && Globals() == o.inbox && Shown == old(Shown) + o.shown
              && LedState() == if o.shown == [] then old(LedState()) else o.shown[|o.shown| - 1]
    {
      var woke;
      if t == Start {
        woke := PollFlashing(ticks);
      } else {
        woke := PollSleeping(ticks);
      }
      r := if woke then Some(Reply(t, msg)) else None;
    }

    /** `startState` (fsm.py:60-72). */
    method StartState(ticks: seq<seq<Edge>>) returns (r: Option<Reply>)
      modifies this`msg, this`bT0, this`red, this`yellow, this`blue, this`Shown
      ensures var o := RunBody(Start, old(Globals()), ticks);
              r == o.reply && Globals() == o.inbox && Shown == old(Shown) + o.shown
              && LedState() == o.shown[|o.shown| - 1]
    {
      SetLed(StartEntry);
      msg := Empty;
      assert Globals() == old(Globals()).(msg := Empty);
      r := Wait(Start, ticks);
    }

    /** `readyState` (fsm.py:84-96). */
    method ReadyState(ticks: seq<seq<Edge>>) returns (r: Option<Reply>)
      modifies this`msg, this`bT0, this`red, this`yellow, this`blue, this`Shown
      ensures var o := RunBody(Ready, old(Globals()), ticks);
              r == o.reply && Globals() == o.inbox && Shown == old(Shown) + o.shown
              && LedState() == o.shown[|o.shown| - 1]
    {
      SetLed(ReadyPattern);
      msg := Empty;
      assert Globals() == old(Globals()).(msg := Empty);
      r := Wait(Ready, ticks);
    }

    /** The flash loop shared by the two transient bodies. */
    method Pulses(pattern: string, n: nat, ticks: seq<seq<Edge>>)
      requires |pattern| >= 3
      modifies this`msg, this`bT0, this`red, this`yellow, this`blue, this`Shown
      ensures Globals() == Pulse(old(Globals()), ticks, n)
      ensures Shown == old(Shown) + Flashes(Decode(pattern), n)
      ensures LedState() == if n == 0 then old(LedState()) else Off
    {
      ghost var b, shown, q := Globals(), Shown, Decode(pattern);
      for i := 0 to n
        invariant Globals() == Pulse(b, ticks, i)
        invariant Shown == shown + Flashes(q, i)
        invariant LedState() == if i == 0 then old(LedState()) else Off
      {
        Feed(EdgesAt(ticks, i));
        FlashLed(pattern);
        assert Shown == shown + (Flashes(q, i) + [q, Off]);
      }
    }

    /** `warmState` (fsm.py:74-82). */
    method WarmState(ticks: seq<seq<Edge>>) returns (r: Reply)
      modifies this`msg, this`bT0, this`red, this`yellow, this`blue, this`Shown
      ensures var o := RunBody(Warm, old(Globals()), ticks);
              Some(r) == o.reply && Globals() == o.inbox && Shown == old(Shown) + o.shown
              && LedState() == o.shown[|o.shown| - 1]
    {
      SetLed(WarmPattern);
      msg := Null;
      Pulses(WarmPattern, WarmFlashes, ticks);
      r := Reply(Warm, msg);
    }

    /** `snapState` (fsm.py:98-106). */
    method SnapState(ticks: seq<seq<Edge>>) returns (r: Reply)
      modifies this`msg, this`bT0, this`red, this`yellow, this`blue, this`Shown
      ensures var o := RunBody(Snap, old(Globals()), ticks);
              Some(r) == o.reply && Globals() == o.inbox && Shown == old(Shown) + o.shown
              && LedState() == o.shown[|o.shown| - 1]
    {
      SetLed(SnapPattern);
      msg := Null;
      Pulses(SnapPattern, SnapFlashes, ticks);
      r := Reply(Snap, msg);
    }

    /** The 2 s pause of `jump`'s fallback (fsm.py:142): the callbacks
        handle the edges that land meanwhile, tick by tick. */
    method Pause(ticks: seq<seq<Edge>>)
      modifies this`msg, this`bT0
      ensures Globals() == DeliverAll(old(Globals()), Flatten(ticks, |ticks|))
    {
      ghost var b := Globals();
      var i := 0;
      while i < |ticks|
        invariant 0 <= i <= |ticks|
        invariant Globals() == DeliverAll(b, Flatten(ticks, i))
      {
        assert Flatten(ticks, i + 1) == Flatten(ticks, i) + ticks[i];
        DeliverAllAppend(b, Flatten(ticks, i), ticks[i]);
        Feed(ticks[i]);
        i := i + 1;
      }
    }

    /** `jump` (fsm.py:127-144): look the pair up and run the chosen body,
        or pause and return `['start','START']` without running one. */
    method Jump(s: State, m: Message, ticks: seq<seq<Edge>>) returns (r: Option<Reply>)
      modifies this`msg, this`bT0, this`red, this`yellow, this`blue, this`Shown
      ensures Next(s, m) == None ==> r == Some(Reply(Start, StartSignal))
                                     && Globals() == DeliverAll(old(Globals()), Flatten(ticks, |ticks|))
                                     && unchanged(this`red, this`yellow, this`blue, this`Shown)
      ensures Next(s, m).Some? ==>
                var o := RunBody(Next(s, m).value, old(Globals()), ticks);
                r == o.reply && Globals() == o.inbox && Shown == old(Shown) + o.shown
                && LedState() == o.shown[|o.shown| - 1]
    {
      match Next(s, m)
      case None =>
        Pause(ticks);
        r := Some(Reply(Start, StartSignal));
      case Some(Start) =>
        r := StartState(ticks);
      case Some(Warm) =>
        var w := WarmState(ticks);
        r := Some(w);
      case Some(Ready) =>
        r := ReadyState(ticks);
      case Some(Snap) =>
        var w := SnapState(ticks);
        r := Some(w);
    }

    /** One iteration of `main`'s loop, `[cur,msg] = jump([cur,msg])`
        (fsm.py:153): the body `main` is still inside goes on polling, or
        `jump` picks and runs a body. While the body polls at the end of
        its script, `cur` keeps its value. */
    method Step(ticks: seq<seq<Edge>>) returns (returned: bool)
      modifies this
      ensures var s := Machine.Step(old(Current()), ticks);
              Current() == s.next && returned == s.returned && Shown == old(Shown) + s.shown
              && (s.shown == [] ==> LedState() == old(LedState()))
              && (s.shown != [] ==> LedState() == s.shown[|s.shown| - 1])
    {
      var body: Option<State>;
      var r: Option<Reply>;
      match polling {
        case Some(t) =>
          body := polling;
          r := Wait(t, ticks);
        case None =>
          body := Next(cur, msg);
          r := Jump(cur, msg, ticks);
      }
      match r {
        case None =>
          polling := body;
          returned := false;
        case Some(reply) =>
          cur, msg, polling := reply.state, reply.message, None;
          returned := true;
      }
    }
  }
}
