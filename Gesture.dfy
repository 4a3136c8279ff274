/**
 * Touch and pointer gesture handling: the flag-based classifier of
 * `TouchGestureHandler` and the pointer table of `AdvancedGestureRecognition`.
 *
 * Touches are integer coordinate pairs, and what the handlers write to the
 * console is returned as a tag.
 */
module Gesture {
  import opened Wrappers

  /** The client coordinates of one `Touch` or `PointerEvent`. */
  datatype Contact = Contact(clientX: int, clientY: int)

  /** What a touch handler logs. */
  datatype TouchLog =
    | Silent                          // no branch of the handler was taken
    | TapStarted                      // one touch went down
    | PinchStarted                    // two or more touches went down
    | SwipeDetected(dx: int, dy: int) // a single-touch move crossed the threshold
    | PinchScaling                    // a multi-touch move while pinching (the scale is not modelled)
    | MoveFault                       // a start touch the handler reads is missing: the handler throws
    | SwipeEnded
    | PinchEnded
    | TapConfirmed

  /** The fields `startTouches`, `isSwiping` and `isPinching` of a `TouchGestureHandler`. */
  datatype TouchState = TouchState(startTouches: Option<seq<Contact>>, isSwiping: bool, isPinching: bool)

  const InitialTouchState: TouchState := TouchState(None, false, false)

  /** A single-touch move swipes when it is strictly farther than this on some axis. */
  const SwipeThreshold: int := 10

  function Abs(n: int): nat { if n < 0 then -n else n }

  predicate ExceedsThreshold(dx: int, dy: int) {
    Abs(dx) > SwipeThreshold || Abs(dy) > SwipeThreshold
  }

  /** The touch-start handler: record the touches; two or more also start a pinch. */
  function TouchStart(s: TouchState, touches: seq<Contact>): (r: (TouchState, TouchLog))
    ensures |touches| == 0 ==> r == (s, Silent)
    ensures |touches| > 0 ==> r.0.startTouches == Some(touches) && r.0.isSwiping == s.isSwiping
    ensures |touches| == 1 ==> r.0.isPinching == s.isPinching && r.1 == TapStarted
    ensures |touches| > 1 ==> r.0.isPinching && r.1 == PinchStarted
  {
    if |touches| == 1 then
      (s.(startTouches := Some(touches)), TapStarted)
    else if |touches| > 1 then
      (s.(startTouches := Some(touches), isPinching := true), PinchStarted)
    else
      (s, Silent)
  }

  /**
   * The condition under which a move turns swiping on: one touch, recorded
   * start touches, no pinch, and a displacement of the first touch from the
   * first start touch beyond the threshold on some axis.
   */
  predicate SwipeTriggered(s: TouchState, touches: seq<Contact>) {
    && |touches| == 1
    && s.startTouches.Some?
    && |s.startTouches.value| > 0
    && !s.isPinching
    && ExceedsThreshold(touches[0].clientX - s.startTouches.value[0].clientX,
                        touches[0].clientY - s.startTouches.value[0].clientY)
  }

  /** A multi-touch move during a pinch whose two start touches are recorded: the scale is logged. */
  predicate PinchTracked(s: TouchState, touches: seq<Contact>) {
    |touches| > 1 && s.isPinching && s.startTouches.Some? && |s.startTouches.value| > 1
  }

  /**
   * The moves whose handler reads a start touch that is not there and so
   * throws: a single-touch move with an empty start list, or a multi-touch
   * move during a pinch with null start touches or fewer than two of them.
   */
  predicate MoveThrows(s: TouchState, touches: seq<Contact>) {
    || (|touches| == 1 && s.startTouches.Some? && !s.isPinching && |s.startTouches.value| == 0)
    || (|touches| > 1 && s.isPinching && !(s.startTouches.Some? && |s.startTouches.value| > 1))
  }

  /** The touch-move handler. */
  function TouchMove(s: TouchState, touches: seq<Contact>): (r: (TouchState, TouchLog))
    ensures r.0.startTouches == s.startTouches && r.0.isPinching == s.isPinching
    ensures r.0.isSwiping <==> s.isSwiping || SwipeTriggered(s, touches)
    ensures |touches| != 1 ==> r.0 == s
    ensures r.1.SwipeDetected? <==> SwipeTriggered(s, touches)
    ensures r.1.SwipeDetected? ==>
              r.1 == SwipeDetected(touches[0].clientX - s.startTouches.value[0].clientX,
                                   touches[0].clientY - s.startTouches.value[0].clientY)
    ensures r.1 == PinchScaling <==> PinchTracked(s, touches)
    ensures r.1 == MoveFault <==> MoveThrows(s, touches)
    ensures r.1 == Silent <==> !SwipeTriggered(s, touches) && !PinchTracked(s, touches) && !MoveThrows(s, touches)
  {
    if |touches| == 1 && s.startTouches.Some? && !s.isPinching then
      var start := s.startTouches.value;
      if |start| == 0 then
        // `this.startTouches[0]` is undefined: reading its clientX throws
        (s, MoveFault)
      else
        var dx := touches[0].clientX - start[0].clientX;
        var dy := touches[0].clientY - start[0].clientY;
        if ExceedsThreshold(dx, dy) then (s.(isSwiping := true), SwipeDetected(dx, dy)) else (s, Silent)
    else if |touches| > 1 && s.isPinching then
      if s.startTouches.Some? && |s.startTouches.value| > 1 then (s, PinchScaling)
      else (s, MoveFault)  // `startTouches` is null or has no second touch
    else
      (s, Silent)
  }

  /** The touch-end handler: swipe has priority over pinch, pinch over tap. */
  function TouchEnd(s: TouchState): (r: (TouchState, TouchLog))
    ensures r.0.startTouches == None && !r.0.isSwiping
    ensures r.0.isPinching <==> s.isSwiping && s.isPinching
    ensures r.1 == SwipeEnded <==> s.isSwiping
    ensures r.1 == PinchEnded <==> !s.isSwiping && s.isPinching
    ensures r.1 == TapConfirmed <==> !s.isSwiping && !s.isPinching
  {
    if s.isSwiping then
      (s.(isSwiping := false, startTouches := None), SwipeEnded)
    else if s.isPinching then
      (s.(isPinching := false, startTouches := None), PinchEnded)
    else
      (s.(startTouches := None), TapConfirmed)
  }

  /** One event delivered to a `TouchGestureHandler`. */
  datatype TouchEvent =
    | StartEvent(touches: seq<Contact>)
    | MoveEvent(touches: seq<Contact>)
    | EndEvent

  function Step(s: TouchState, e: TouchEvent): TouchState {
    match e
    case StartEvent(touches) => TouchStart(s, touches).0
    case MoveEvent(touches) => TouchMove(s, touches).0
    case EndEvent => TouchEnd(s).0
  }

  /** The state after delivering `events` in order. */
  function Replay(s: TouchState, events: seq<TouchEvent>): TouchState
    decreases |events|
  {
    if events == [] then s else Replay(Step(s, events[0]), events[1..])
  }

  /** Once the start touches are cleared and no swipe is on, moves and ends never start a swipe. */
  lemma {:induction false} NoSwipeWithoutStart(s: TouchState, events: seq<TouchEvent>)
    requires s.startTouches == None && !s.isSwiping
    requires forall i :: 0 <= i < |events| ==> !events[i].StartEvent?
    ensures Replay(s, events).startTouches == None && !Replay(s, events).isSwiping
    decreases |events|
  {
    if events != [] {
      NoSwipeWithoutStart(Step(s, events[0]), events[1..]);
    }
  }

  /** After an end, no move can set `isSwiping` until a new start records touches. */
  lemma {:induction false} NoSwipeAfterEnd(s: TouchState, events: seq<TouchEvent>)
    requires forall i :: 0 <= i < |events| ==> !events[i].StartEvent?
    ensures !Replay(TouchEnd(s).0, events).isSwiping
  {
    NoSwipeWithoutStart(TouchEnd(s).0, events);
  }

  /** Moves never clear either flag and never touch the start touches. */
  lemma {:induction false} MovesKeepFlags(s: TouchState, events: seq<TouchEvent>)
    requires forall i :: 0 <= i < |events| ==> events[i].MoveEvent?
    ensures Replay(s, events).startTouches == s.startTouches
    ensures Replay(s, events).isPinching == s.isPinching
    ensures s.isSwiping ==> Replay(s, events).isSwiping
    decreases |events|
  {
    if events != [] {
      MovesKeepFlags(Step(s, events[0]), events[1..]);
    }
  }

  /** The swipe test is strict: a displacement of at most 10 on both axes never swipes. */
  lemma ThresholdIsStrict(p: Contact, dx: int, dy: int)
    requires -10 <= dx <= 10 && -10 <= dy <= 10
    ensures !Step(Step(InitialTouchState, StartEvent([p])), MoveEvent([Contact(p.clientX + dx, p.clientY + dy)])).isSwiping
  {
  }

  /**
   * A swipe that overlaps a pinch leaves `isPinching` set after the end while
   * the start touches are null, so the next multi-touch move throws: one
   * finger swipes, two more land, the first lifts, the other two move.
   */
  lemma PinchSurvivesSwipeEnd(a: Contact, b: Contact, c: Contact, d: Contact)
    requires Abs(b.clientX - a.clientX) > 10
    ensures var swiping := Step(Step(InitialTouchState, StartEvent([a])), MoveEvent([b]));
            var s := Step(Step(swiping, StartEvent([b, c, d])), EndEvent);
            && s.isPinching && !s.isSwiping && s.startTouches == None
            && TouchMove(s, [c, d]) == (s, MoveFault)
  {
  }

  /**
   * `TouchGestureHandler`: the handlers update the three fields in place and
   * return what they log.
   */
  class TouchGestureHandler {
    var startTouches: Option<seq<Contact>>
    var isSwiping: bool
    var isPinching: bool

    function State(): TouchState
      reads this
    {
      TouchState(startTouches, isSwiping, isPinching)
    }

    constructor ()
      ensures State() == InitialTouchState
    {
      startTouches, isSwiping, isPinching := None, false, false;
    }

    method HandleTouchStart(touches: seq<Contact>) returns (log: TouchLog)
      modifies this
      ensures (State(), log) == TouchStart(old(State()), touches)
    {
      if |touches| == 1 {
        startTouches := Some(touches);
        log := TapStarted;
      } else if |touches| > 1 {
        startTouches := Some(touches);
        log := PinchStarted;
        isPinching := true;
      } else {
        log := Silent;
      }
    }

    method HandleTouchMove(touches: seq<Contact>) returns (log: TouchLog)
      modifies this
      ensures (State(), log) == TouchMove(old(State()), touches)
    {
      log := Silent;
      if |touches| == 1 && startTouches.Some? && !isPinching {
        var start := startTouches.value;
        if |start| == 0 {
          log := MoveFault;
          return;
        }
        var dx := touches[0].clientX - start[0].clientX;
        var dy := touches[0].clientY - start[0].clientY;
        if Abs(dx) > SwipeThreshold || Abs(dy) > SwipeThreshold {
          isSwiping := true;
          log := SwipeDetected(dx, dy);
        }
      } else if |touches| > 1 && isPinching {
        if startTouches.Some? && |startTouches.value| > 1 {
          log := PinchScaling;
        } else {
          log := MoveFault;
        }
      }
    }

    method HandleTouchEnd() returns (log: TouchLog)
      modifies this
      ensures (State(), log) == TouchEnd(old(State()))
    {
      if isSwiping {
        log := SwipeEnded;
        isSwiping := false;
      } else if isPinching {
        log := PinchEnded;
        isPinching := false;
      } else {
        log := TapConfirmed;
      }
      startTouches := None;
    }
  }

  /** `AdvancedGestureRecognition`: a table from pointer id to the event that started it. */
  class AdvancedGestureRecognition {
    var ongoingTouches: map<int, Contact>

    constructor ()
      ensures ongoingTouches == map[]
    {
      ongoingTouches := map[];
    }

    /** pointerdown: insert, overwriting any entry for the same id. */
    method HandleGestureStart(pointerId: int, event: Contact)
      modifies this
      ensures ongoingTouches.Keys == old(ongoingTouches).Keys + {pointerId}
      ensures ongoingTouches[pointerId] == event
      ensures forall id :: id in old(ongoingTouches) && id != pointerId ==> ongoingTouches[id] == old(ongoingTouches)[id]
    {
      ongoingTouches := ongoingTouches[pointerId := event];
    }

    /**
     * pointermove: for a tracked id, the displacement from that id's start
     * event (what the handler logs); nothing for an untracked id.
     */
    method HandleGestureMove(pointerId: int, event: Contact) returns (moved: Option<(int, int)>)
      ensures moved.Some? <==> pointerId in ongoingTouches
      ensures moved.Some? ==> event.clientX == ongoingTouches[pointerId].clientX + moved.value.0
      ensures moved.Some? ==> event.clientY == ongoingTouches[pointerId].clientY + moved.value.1
    {
      if pointerId in ongoingTouches {
        var startEvent := ongoingTouches[pointerId];
        var dx := event.clientX - startEvent.clientX;
        var dy := event.clientY - startEvent.clientY;
        moved := Some((dx, dy));
      } else {
        moved := None;
      }
    }

    /** pointerup: remove exactly that id; an absent id changes nothing. */
    method HandleGestureEnd(pointerId: int)
      modifies this
      ensures ongoingTouches.Keys == old(ongoingTouches).Keys - {pointerId}
      ensures forall id :: id in ongoingTouches ==> ongoingTouches[id] == old(ongoingTouches)[id]
      ensures pointerId !in old(ongoingTouches) ==> ongoingTouches == old(ongoingTouches)
    {
      ongoingTouches := ongoingTouches - {pointerId};
    }
  }
}
