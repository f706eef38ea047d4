/** The scroll-direction hook (src/hooks/useScrollDirection.ts): which way
    the page was last scrolled, with a dead zone at the top, hysteresis, and
    at most one animation frame pending at a time. */
module ScrollDirection {

  datatype Dir = Up | Down

  /** Offsets at or below this count as "at the top". */
  const TopThreshold: int := 8
  /** The smallest movement that may change the direction. */
  const Hysteresis: int := 24

  function Abs(x: int): (r: nat)
    ensures r == x || r == -x
  {
    if x < 0 then -x else x
  }

  /** The hook's state: the direction shown, the offset it was last decided
      at, the `ticking` guard, and the number of animation frames the
      browser holds for it. */
  datatype ScrollState = ScrollState(dir: Dir, lastY: int, ticking: bool, pending: nat)

  /** The state before any event. */
  const Initial: ScrollState := ScrollState(Up, 0, false, 0)

  /** At most one frame is ever pending, and `ticking` says whether it is. */
  predicate Inv(s: ScrollState)
  {
    s.pending <= 1 && (s.ticking <==> s.pending == 1)
  }

  /** `handleScroll` with `window.scrollY == y`: at the top the direction is
      up and `lastY` follows `y`; further down, only a movement of at least
      the hysteresis from `lastY` decides a new direction and moves `lastY`;
      and the guard is released either way. */
  function HandleScroll(s: ScrollState, y: int): (r: ScrollState)
    ensures !r.ticking && r.pending == s.pending
    ensures r.lastY == y || r.lastY == s.lastY
    ensures r.dir == Down ==> (y > TopThreshold && y >= s.lastY + Hysteresis) || (r.dir == s.dir && r.lastY == s.lastY)
  {
    if y <= TopThreshold then ScrollState(Up, y, false, s.pending)
    else if Abs(y - s.lastY) >= Hysteresis then
      ScrollState(if y > s.lastY then Down else Up, y, false, s.pending)
    else ScrollState(s.dir, s.lastY, false, s.pending)
  }

  /** `onScroll`: a frame is requested only when none is outstanding. */
  function RequestFrame(s: ScrollState): (r: ScrollState)
    ensures r.ticking
    ensures r.pending == if s.ticking then s.pending else s.pending + 1
    ensures r.dir == s.dir && r.lastY == s.lastY
  {
    if s.ticking then s else ScrollState(s.dir, s.lastY, true, s.pending + 1)
  }

  /** The browser runs a requested frame, which calls `handleScroll`. */
  function RunFrame(s: ScrollState, y: int): (r: ScrollState)
    requires s.pending > 0
    ensures r.pending == s.pending - 1 && !r.ticking
  {
    HandleScroll(ScrollState(s.dir, s.lastY, s.ticking, s.pending - 1), y)
  }

  /** The events the hook reacts to: a scroll event, a frame firing with the
      page at offset `y`, and a direct `setScrollDir(d)` from the hook's user. */
  datatype Event = Scroll | Frame(y: int) | SetDir(d: Dir)

  /** One event. A frame fires only if one was requested. */
  function Step(s: ScrollState, e: Event): ScrollState
  {
    match e
    case Scroll => RequestFrame(s)
    case Frame(y) => if s.pending > 0 then RunFrame(s, y) else s
    case SetDir(d) => ScrollState(d, s.lastY, s.ticking, s.pending)
  }

  /** A sequence of events, in order. */
  function Run(s: ScrollState, events: seq<Event>): ScrollState
    decreases |events|
  {
    if |events| == 0 then s else Run(Step(s, events[0]), events[1..])
  }

  lemma StepKeepsInv(s: ScrollState, e: Event)
    requires Inv(s)
    ensures Inv(Step(s, e))
  {
  }

  /** Whatever happens, no more than one frame is ever pending. */
  lemma {:induction false} RunKeepsInv(s: ScrollState, events: seq<Event>)
    requires Inv(s)
    ensures Inv(Run(s, events))
    ensures Run(s, events).pending <= 1
    decreases |events|
  {
    if |events| > 0 {
      StepKeepsInv(s, events[0]);
      RunKeepsInv(Step(s, events[0]), events[1..]);
    }
  }

  /** From the initial state, at most one frame is ever pending. */
  lemma AtMostOneFrame(events: seq<Event>)
    ensures Run(Initial, events).pending <= 1
    ensures Run(Initial, events).ticking <==> Run(Initial, events).pending == 1
  {
    RunKeepsInv(Initial, events);
  }

  /** Without outside `SetDir` events, a downward direction was decided at
      an offset below the top zone. */
  predicate DownBelowTop(s: ScrollState)
  {
    s.dir == Down ==> s.lastY > TopThreshold
  }

  predicate NoSetDir(events: seq<Event>)
  {
    forall i :: 0 <= i < |events| ==> !events[i].SetDir?
  }

  lemma {:induction false} RunKeepsDownBelowTop(s: ScrollState, events: seq<Event>)
    requires DownBelowTop(s) && NoSetDir(events)
    ensures DownBelowTop(Run(s, events))
    decreases |events|
  {
    if |events| > 0 {
      assert !events[0].SetDir?;
      assert DownBelowTop(Step(s, events[0]));
      RunKeepsDownBelowTop(Step(s, events[0]), events[1..]);
    }
  }

  /** A frame at the top always shows the header direction as up, whatever
      came before. */
  lemma TopResets(s: ScrollState, y: int)
    requires s.pending > 0 && y <= TopThreshold
    ensures RunFrame(s, y).dir == Up && RunFrame(s, y).lastY == y
  {
  }

  /** A frame that moved at least the hysteresis below the top decides the
      direction by the sign of the movement. */
  lemma LargeMoveDecides(s: ScrollState, y: int)
    requires s.pending > 0 && y > TopThreshold && Abs(y - s.lastY) >= Hysteresis
    ensures RunFrame(s, y).dir == (if y > s.lastY then Down else Up)
    ensures RunFrame(s, y).lastY == y
  {
  }

  /** A frame that moved less than the hysteresis below the top changes
      neither the direction nor `lastY`. */
  lemma SmallMoveKeeps(s: ScrollState, y: int)
    requires s.pending > 0 && y > TopThreshold && Abs(y - s.lastY) < Hysteresis
    ensures RunFrame(s, y).dir == s.dir && RunFrame(s, y).lastY == s.lastY
  {
  }

  /** The hook as an object whose refs and state the handlers update. */
  class Tracker {
    var dir: Dir
    var lastY: int
    var ticking: bool
    /** Frames the browser holds for `handleScroll`. */
    var pending: nat

    function Current(): ScrollState
      reads this
    {
      ScrollState(dir, lastY, ticking, pending)
    }

    constructor ()
      ensures Current() == Initial
    {
      dir, lastY, ticking, pending := Up, 0, false, 0;
    }

    /** The scroll listener. */
    method OnScroll()
      modifies this
      ensures Current() == RequestFrame(old(Current()))
      ensures Inv(old(Current())) ==> Inv(Current())
    {
      if !ticking {
        ticking := true;
        pending := pending + 1;
      }
    }

    /** A requested frame runs `handleScroll` at offset `y`. */
    method Frame(y: int)
      requires pending > 0
      modifies this
      ensures Current() == RunFrame(old(Current()), y)
      ensures Inv(old(Current())) ==> Inv(Current())
    {
      pending := pending - 1;
      if y <= TopThreshold {
        dir := Up;
        lastY := y;
        ticking := false;
        return;
      }
      if Abs(y - lastY) >= Hysteresis {
        dir := if y > lastY then Down else Up;
        lastY := y;
      }
      ticking := false;
    }

    /** The setter the hook hands out (`setScrollDir`). */
    method SetDir(d: Dir)
      modifies this`dir
      ensures Current() == Step(old(Current()), Event.SetDir(d))
    {
      dir := d;
    }
  }
}
