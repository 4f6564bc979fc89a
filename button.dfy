/** The two button callbacks (fsm.py:109-122) as functions on the pair of
    globals they share with the controller: the inbox `msg` and the press
    timestamp `b_t0`. Timestamps are clock readings passed in as values. */
module Button {
  import opened Types
  import opened Classifier

  /** A button edge as delivered by the input source, with its clock reading. */
  datatype Edge = Pressed(at: real) | Released(at: real)

  /** The globals `msg` and `b_t0` (fsm.py:58, 108). */
  datatype Inbox = Inbox(msg: Message, t0: real)

  /** `buttonPressStart` (fsm.py:109-111): record the press time. */
  function Press(b: Inbox, now: real): (r: Inbox)
    ensures r.msg == b.msg
  {
    b.(t0 := now)
  }

  /** `buttonReleased` (fsm.py:114-121): classify `now - b_t0`, overwrite
      the inbox with the result and reset `b_t0` to 0. */
  function Release(b: Inbox, now: real): (r: Inbox)
    ensures IsPress(r.msg) && r.t0 == 0.0
  {
    Inbox(Classify(now - b.t0), 0.0)
  }

  /** A release does not look at what the inbox held: two inboxes that
      differ only in their message give the same result. */
  lemma ReleaseOverwrites(b: Inbox, b': Inbox, now: real)
    requires b.t0 == b'.t0
    ensures Release(b, now) == Release(b', now)
  {
  }

  /** A release with no press recorded since the last one measures from
      time 0, so any clock reading above 1.2 s classifies as long. */
  lemma ReleaseWithoutPress(b: Inbox, now: real)
    requires b.t0 == 0.0 && now > LongPressTime
    ensures Release(b, now).msg == LongPress
  {
  }

  /** One callback firing (fsm.py:124-125): a press only stamps `b_t0`,
      a release overwrites the inbox and clears `b_t0`. */
  function Deliver(b: Inbox, e: Edge): (r: Inbox)
    ensures e.Pressed? ==> r == Inbox(b.msg, e.at)
    ensures e.Released? ==> IsPress(r.msg) && r.t0 == 0.0
  {
    match e
    case Pressed(t) => Press(b, t)
    case Released(t) => Release(b, t)
  }

  predicate HasRelease(es: seq<Edge>)
  {
    exists i :: 0 <= i < |es| && es[i].Released?
  }

  /** The callbacks that fire, in order, between two reads of the inbox.
      Without a release the message is untouched; after any release it
      is a classifier message. */
  function DeliverAll(b: Inbox, es: seq<Edge>): (r: Inbox)
    ensures !HasRelease(es) ==> r.msg == b.msg
    ensures HasRelease(es) ==> IsPress(r.msg)
    decreases |es|
  {
    if es == [] then b
    else
      assert HasRelease(es) <==> es[0].Released? || HasRelease(es[1..]) by {
        if HasRelease(es[1..]) {
          var i :| 0 <= i < |es[1..]| && es[1..][i].Released?;
          assert es[i + 1].Released?;
        }
        if HasRelease(es) && !es[0].Released? {
          var i :| 0 <= i < |es| && es[i].Released?;
          assert es[1..][i - 1].Released?;
        }
      }
      DeliverAll(Deliver(b, es[0]), es[1..])
  }

  /** Handling `xs` and then `ys` is handling `xs + ys`. */
  lemma {:induction false} DeliverAllAppend(b: Inbox, xs: seq<Edge>, ys: seq<Edge>)
    ensures DeliverAll(b, xs + ys) == DeliverAll(DeliverAll(b, xs), ys)
    decreases |xs|
  {
    if xs == [] {
      assert xs + ys == ys;
    } else {
      assert (xs + ys)[1..] == xs[1..] + ys;
      DeliverAllAppend(Deliver(b, xs[0]), xs[1..], ys);
    }
  }

  /** The clock reading `b_t0` holds after the edges `es`: the time of the
      last edge if it was a press, 0 if it was a release, the old value
      when there are none. */
  function LastT0(b: Inbox, es: seq<Edge>): (t0: real)
  {
    if es == [] then b.t0
    else match es[|es| - 1]
      case Pressed(t) => t
      case Released(_) => 0.0
  }

  /** The position of the most recent release. */
  function LastReleaseIndex(es: seq<Edge>): (k: nat)
    requires HasRelease(es)
    ensures k < |es| && es[k].Released?
    ensures forall j :: k < j < |es| ==> es[j].Pressed?
  {
    if es[|es| - 1].Released? then |es| - 1
    else
      assert HasRelease(es[..|es| - 1]) by {
        var i :| 0 <= i < |es| && es[i].Released?;
        assert es[..|es| - 1][i].Released?;
      }
      LastReleaseIndex(es[..|es| - 1])
  }

  /** Reference definition of the inbox after the edges `es`: the class of
      the most recent release, measured from the clock reading the edge
      before it left; the old message when no release lands. */
  function Latest(b: Inbox, es: seq<Edge>): (m: Message)
  {
    if !HasRelease(es) then b.msg
    else
      var k := LastReleaseIndex(es);
      Classify(es[k].at - LastT0(b, es[..k]))
  }

  /** The inbox holds the latest message: handling the callbacks one by
      one, each release overwriting the last (fsm.py:119-121), leaves
      exactly what the reference definition says. */
  lemma {:induction false} DeliverAllIsLatest(b: Inbox, es: seq<Edge>)
    ensures DeliverAll(b, es) == Inbox(Latest(b, es), LastT0(b, es))
    decreases |es|
  {
    if es != [] {
      var init, e := es[..|es| - 1], es[|es| - 1];
      assert es == init + [e];
      DeliverAllAppend(b, init, [e]);
      DeliverAllIsLatest(b, init);
      var mid := DeliverAll(b, init);
      assert DeliverAll(mid, [e]) == Deliver(mid, e) by {
        assert DeliverAll(Deliver(mid, e), []) == Deliver(mid, e);
      }
      if e.Released? {
        assert HasRelease(es) by { assert es[|es| - 1].Released?; }
        assert es[..|es| - 1] == init;
      } else if HasRelease(es) {
        assert HasRelease(init) by {
          var i :| 0 <= i < |es| && es[i].Released?;
          assert init[i].Released?;
        }
        var k := LastReleaseIndex(init);
        assert es[..k] == init[..k];
      }
    }
  }
}
