/** One iteration of the controller loop, `[cur,msg] = jump([cur,msg])`
    (fsm.py:153), as a function of the loop variable `cur`, the globals, the
    body the loop is still inside (if any) and the button script. */
module Machine {
  import opened Types
  import opened Classifier
  import opened Button
  import opened Lights
  import opened Transition
  import opened Bodies

  /** `main`'s `cur` together with the globals `msg` and `b_t0`, and the
      waiting body whose poll loop `main` is still inside when the previous
      iteration ran out of script before that body returned. */
  datatype Config = Config(cur: State, inbox: Inbox, polling: Option<State>)

  /** Only the two waiting bodies can be left polling. */
  predicate Valid(c: Config)
  {
    c.polling == None || c.polling == Some(Start) || c.polling == Some(Ready)
  }

  /** The result of one iteration: the configuration afterwards, whether
      `jump` returned (false while a waiting body is still polling), which
      body ran (`None` on the fallback) and the light states applied. */
  datatype Stepped = Stepped(next: Config, returned: bool, ran: Option<State>, shown: seq<Leds>)

  /** `main` reaches its first `jump` with `cur = 'start'` and message
      "START" (fsm.py:150-151), `b_t0` still 0.0 (fsm.py:108). That call's
      result is discarded, but its body returns `['start', msg]` with the
      global `msg`, which is what the loop then reads; so the first
      iteration from `Initial` stands for line 151. */
  const Initial := Config(Start, Inbox(StartSignal, 0.0), None)

  /** After body `t` has run (or resumed) with outcome `o`: either it
      returned and the loop assigns `[cur, msg]`, or it is still polling. */
  function Settle(c: Config, t: State, o: Outcome): (r: Stepped)
    ensures r.ran == Some(t) && r.shown == o.shown && r.next.inbox == o.inbox
    ensures r.returned <==> o.reply.Some?
    ensures r.returned ==> r.next.cur == o.reply.value.state && r.next.polling == None
    ensures !r.returned ==> r.next.cur == c.cur && r.next.polling == Some(t)
  {
    match o.reply
    case None => Stepped(Config(c.cur, o.inbox, Some(t)), false, Some(t), o.shown)
    case Some(r) => Stepped(Config(r.state, o.inbox, None), true, Some(t), o.shown)
  }

  /** A returned iteration leaves no body polling and hands a non-empty
      message to the next `jump`; an unreturned one leaves the body that
      ran polling, and only a waiting body can be left so. */
  function Step(c: Config, ticks: seq<seq<Edge>>): (r: Stepped)
    ensures r.returned ==> r.next.polling == None && r.next.inbox.msg != Empty
    ensures !r.returned ==> r.next.polling == r.ran && r.next.cur == c.cur
    ensures Valid(c) ==> Valid(r.next)
  {
    match c.polling
    case Some(t) =>
      Settle(c, t, PollLoop(t, c.inbox, ticks))
    case None =>
      match Next(c.cur, c.inbox.msg)
      case None =>
        var paused := DeliverAll(c.inbox, Flatten(ticks, |ticks|));
        Stepped(Config(Start, paused.(msg := StartSignal), None), true, None, [])
      case Some(t) =>
        Settle(c, t, RunBody(t, c.inbox, ticks))
  }

  /** The body that runs is the table's choice, or the one still polling;
      the `cur` after a returned step names that body, or `start` on the
      fallback. */
  lemma StepRunsTableBody(c: Config, ticks: seq<seq<Edge>>)
    ensures c.polling == None ==> Step(c, ticks).ran == Next(c.cur, c.inbox.msg)
    ensures c.polling.Some? ==> Step(c, ticks).ran == c.polling
    ensures var r := Step(c, ticks);
            r.returned ==> r.next.cur == (if r.ran.Some? then r.ran.value else Start)
  {
  }

  /** A waiting body left polling goes on polling in the next iteration,
      without re-entering: it does not clear the inbox or reset its light,
      and it returns its own name with the message it finds, which is
      one a release left between the two iterations, if any. */
  lemma PollingResumes(c: Config, ticks: seq<seq<Edge>>)
    requires c.polling == Some(Start) || c.polling == Some(Ready)
    ensures var r := Step(c, ticks);
            r.ran == c.polling
            && r.shown == (if c.polling == Some(Start) then Flashes(Colour(Start), PollLoop(Start, c.inbox, ticks).used) else [])
            && (r.returned ==> r.next.cur == c.polling.value)
            && (c.inbox.msg != Empty && |ticks| > 0 ==> r.returned)
  {
  }

  /** The fallback (fsm.py:140-143) runs no body and changes no light; its
      script is the 2 s pause, whose edges only leave `b_t0` at the latest
      press (or 0 after a release), since `main` then overwrites `msg` with
      "START". The following iteration enters `startState` whatever its
      script. */
  lemma FallbackRestarts(c: Config, ticks: seq<seq<Edge>>, ticks': seq<seq<Edge>>)
    requires c.polling == None && Next(c.cur, c.inbox.msg) == None
    ensures Step(c, ticks) ==
              Stepped(Config(Start, Inbox(StartSignal, LastT0(c.inbox, Flatten(ticks, |ticks|))), None), true, None, [])
    ensures Step(Step(c, ticks).next, ticks').ran == Some(Start)
  {
    DeliverAllIsLatest(c.inbox, Flatten(ticks, |ticks|));
  }

  /** A too-short tap in `ready` takes the fallback. A press made during
      its pause is timed from the moment it landed once `startState`
      sees the release; a whole press and release during the pause is lost. */
  lemma PauseKeepsPress()
    ensures var s := Step(Config(Ready, Inbox(NoPress, 0.0), None), [[Pressed(10.0)]]);
            s.next == Config(Start, Inbox(StartSignal, 10.0), None)
            && Step(s.next, [[Released(10.5)]]).next == Config(Start, Inbox(ShortPress, 0.0), None)
    ensures Step(Config(Ready, Inbox(NoPress, 0.0), None), [[Pressed(10.0), Released(10.5)]]).next
            == Config(Start, Inbox(StartSignal, 0.0), None)
  {
    var press, both := [[Pressed(10.0)]], [[Pressed(10.0), Released(10.5)]];
    assert Flatten(press, 1) == [Pressed(10.0)];
    assert DeliverAll(Inbox(NoPress, 0.0), [Pressed(10.0)]) == Inbox(NoPress, 10.0);
    assert Flatten(both, 1) == [Pressed(10.0), Released(10.5)];
    assert DeliverAll(Inbox(NoPress, 10.0), [Released(10.5)]).t0 == 0.0;
  }

  /** A long press in the inbox takes every state to `startState` within
      one `jump`. */
  lemma LongPressRestarts(c: Config, ticks: seq<seq<Edge>>)
    requires c.inbox.msg == LongPress
    ensures c.polling == None ==> Step(c, ticks).ran == Some(Start)
  {
  }

  /** A too-short press never runs a body directly: the next iteration is
      the fallback, and the one after enters `startState`. */
  lemma NoPressRestarts(c: Config, ticks: seq<seq<Edge>>, ticks': seq<seq<Edge>>)
    requires c.inbox.msg == NoPress
    ensures c.polling == None ==> Step(c, ticks).ran == None
    ensures c.polling == None ==> Step(Step(c, ticks).next, ticks').ran == Some(Start)
  {
  }

  /** No stale message: a body that returns hands the next `jump` the
      message of the latest release among the edges it handled, or, when
      none landed, the "null" a transient body wrote itself. A resumed
      poll loop also delivers a message a release left between iterations. */
  lemma NoStaleMessage(c: Config, ticks: seq<seq<Edge>>)
    ensures var r := Step(c, ticks);
            c.polling == None && r.returned && r.ran.Some? ==>
              var es := Flatten(ticks, RunBody(r.ran.value, c.inbox, ticks).used);
              r.next.inbox.msg == (if HasRelease(es) then Latest(c.inbox, es) else Null)
    ensures var r := Step(c, ticks);
            c.polling.Some? && r.returned ==>
              var es := Flatten(ticks, PollLoop(c.polling.value, c.inbox, ticks).used);
              r.next.inbox.msg == (if HasRelease(es) then Latest(c.inbox, es) else c.inbox.msg)
  {
    var r := Step(c, ticks);
    if c.polling == None && r.returned && r.ran.Some? {
      RunBodyHandsOnLatest(r.ran.value, c.inbox, ticks);
    }
    if c.polling.Some? && r.returned {
      var o := PollLoop(c.polling.value, c.inbox, ticks);
      assert DeliverAll(c.inbox, Flatten(ticks, 0)) == c.inbox;
      AwaitIsFlat(c.inbox, ticks, 0);
      DeliverAllIsLatest(c.inbox, Flatten(ticks, o.used));
    }
  }

  /** The message that selected a body has no further effect on the
      iteration, because every body overwrites the inbox on entry: two
      configurations that select the same body with the same `b_t0` run
      it alike. */
  lemma StepConsumesMessage(c: Config, c': Config, ticks: seq<seq<Edge>>)
    requires c.polling == None && c'.polling == None && c'.inbox.t0 == c.inbox.t0
    requires Next(c'.cur, c'.inbox.msg) == Next(c.cur, c.inbox.msg) != None
    ensures var r, r' := Step(c, ticks), Step(c', ticks);
            r.ran == r'.ran && r.returned == r'.returned && r.shown == r'.shown
            && r.next.inbox == r'.next.inbox && (r.returned ==> r.next == r'.next)
  {
  }

  /** The walk-through of the state diagram up to `ready`: start, a short
      press into `warm`, whose six flashes lead into `ready`, which a short
      press ends; with the light sequence each body shows. */
  lemma ShortPressTour()
    ensures var s1 := Step(Initial, [[], [Pressed(10.0), Released(10.5)]]);
            s1.returned && s1.ran == Some(Start) && s1.next == Config(Start, Inbox(ShortPress, 0.0), None)
            && s1.shown == [Off] + Flashes(Colour(Start), 2)
    ensures var s2 := Step(Config(Start, Inbox(ShortPress, 0.0), None), []);
            s2.returned && s2.ran == Some(Warm) && s2.next == Config(Warm, Inbox(Null, 0.0), None)
            && s2.shown == [Colour(Warm)] + Flashes(Colour(Warm), 6)
    ensures var s3 := Step(Config(Warm, Inbox(Null, 0.0), None), [[Pressed(20.0)], [Released(20.3)]]);
            s3.returned && s3.ran == Some(Ready) && s3.next == Config(Ready, Inbox(ShortPress, 0.0), None)
            && s3.shown == [Colour(Ready)]
  {
  }

  /** The rest of the walk-through: from `ready` a short press into
      `snap`, whose five flashes lead back into `ready`, which then waits. */
  lemma SnapTour()
    ensures var s4 := Step(Config(Ready, Inbox(ShortPress, 0.0), None), []);
            s4.returned && s4.ran == Some(Snap) && s4.next == Config(Snap, Inbox(Null, 0.0), None)
            && s4.shown == [Colour(Snap)] + Flashes(Colour(Snap), 5)
    ensures var s5 := Step(Config(Snap, Inbox(Null, 0.0), None), [[], []]);
            !s5.returned && s5.ran == Some(Ready) && s5.next == Config(Snap, Inbox(Empty, 0.0), Some(Ready))
            && s5.shown == [Colour(Ready)]
  {
  }

  /** `ready` runs out of script still polling; in the next iteration a
      release reaches that same poll loop, which returns it as
      `['ready', 'shortPress']` instead of starting over. */
  lemma ReadyKeepsPolling()
    ensures var s1 := Step(Config(Snap, Inbox(Null, 0.0), None), [[]]);
            !s1.returned && s1.next == Config(Snap, Inbox(Empty, 0.0), Some(Ready))
    ensures var s2 := Step(Config(Snap, Inbox(Empty, 0.0), Some(Ready)), [[Released(1.0)]]);
            s2.returned && s2.ran == Some(Ready) && s2.shown == []
            && s2.next == Config(Ready, Inbox(ShortPress, 0.0), None)
  {
  }

  /** A long press while `warm` is flashing is returned by `warmState`
      instead of "null", and the next `jump` enters `startState`. */
  lemma LongPressDuringWarm()
    ensures var s := Step(Config(Start, Inbox(ShortPress, 0.0), None), [[Pressed(3.0)], [], [Released(5.0)]]);
            s.returned && s.ran == Some(Warm) && s.next == Config(Warm, Inbox(LongPress, 0.0), None)
            && Step(s.next, []).ran == Some(Start)
  {
  }
}
