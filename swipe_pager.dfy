/** The touch-swipe pagination of the flow-magnets page. A touch that starts
    outside the fixed bottom controls records its start and end height; when
    it ends, a vertical swipe of more than 50 px moves one page (up the screen
    to the next page, down to the previous one) and locks the pager until a
    600 ms timer fires, which the caller signals with `LockExpired`. */
module SwipePager {
  /** `minSwipeDistance`, in CSS pixels. */
  const MinSwipeDistance: real := 50.0

  /** `currentIndex` and the refs `isScrollingRef`, `isTouchingRef`,
      `touchStartYRef`, `touchEndYRef`. */
  datatype Pager = Pager(index: nat, isScrolling: bool, isTouching: bool, startY: real, endY: real)

  datatype Event =
    | TouchStarted(y: real, onControls: bool)  // onControls: the target is inside `.fixed.bottom-0`
    | TouchMoved(y: real)
    | TouchEnded
    | LockExpired                           // the 600 ms setTimeout fires

  /** The page a finished swipe of `distance = startY - endY` lands on, among
      `count` pages. */
  function SwipeTarget(index: nat, count: nat, distance: real): (r: nat)
    ensures r == index + 1 <==> distance > MinSwipeDistance && index < count - 1
    ensures r + 1 == index <==> distance < -MinSwipeDistance && index > 0
    ensures r == index <==> !(distance > MinSwipeDistance && index < count - 1) &&
                            !(distance < -MinSwipeDistance && index > 0)
  {
    if distance > MinSwipeDistance && index < count - 1 then index + 1
    else if distance < -MinSwipeDistance && index > 0 then index - 1
    else index
  }

  /** The pager before any touch. */
  function Initial(): Pager
  {
    Pager(0, false, false, 0.0, 0.0)
  }

  /** The page index is a page of the article list (or 0 when it is empty). */
  predicate InRange(p: Pager, count: nat)
  {
    p.index == 0 || p.index < count
  }

  /** `handleTouchStart`. */
  function TouchStart(p: Pager, y: real, onControls: bool): (r: Pager)
    ensures onControls || p.isTouching || p.isScrolling ==> r == p
    ensures !(onControls || p.isTouching || p.isScrolling) ==>
              r.isTouching && r.startY == y && r.endY == y && r.index == p.index && !r.isScrolling
  {
    if onControls || p.isTouching || p.isScrolling then p
    else p.(isTouching := true, startY := y, endY := y)
  }

  /** `handleTouchMove`. */
  function TouchMove(p: Pager, y: real): (r: Pager)
    ensures p.isTouching ==> r == p.(endY := y)
    ensures !p.isTouching ==> r == p
  {
    if p.isTouching then p.(endY := y) else p
  }

  /** `handleTouchEnd`. A height of 0 counts as not recorded (it is falsy). */
  function TouchEnd(p: Pager, count: nat): (r: Pager)
    ensures !r.isTouching
    ensures !p.isTouching || p.isScrolling ==> r == p.(isTouching := false)
    ensures p.isTouching && !p.isScrolling ==>
              r.startY == 0.0 && r.endY == 0.0 &&
              r.index == (if p.startY == 0.0 || p.endY == 0.0 then p.index
                          else SwipeTarget(p.index, count, p.startY - p.endY)) &&
              (r.isScrolling <==> r.index != p.index)
  {
    if !p.isTouching || p.isScrolling then
      p.(isTouching := false)
    else if p.startY == 0.0 || p.endY == 0.0 || p.startY == p.endY then
      p.(isTouching := false, startY := 0.0, endY := 0.0)
    else
      var target := SwipeTarget(p.index, count, p.startY - p.endY);
      p.(isTouching := false, index := target, isScrolling := target != p.index, startY := 0.0, endY := 0.0)
  }

  /** The lock timer's callback. */
  function Unlock(p: Pager): (r: Pager)
    ensures !r.isScrolling && r == p.(isScrolling := false)
  {
    p.(isScrolling := false)
  }

  function Step(p: Pager, count: nat, ev: Event): Pager
  {
    match ev
    case TouchStarted(y, onControls) => TouchStart(p, y, onControls)
    case TouchMoved(y) => TouchMove(p, y)
    case TouchEnded => TouchEnd(p, count)
    case LockExpired => Unlock(p)
  }

  function Run(p: Pager, count: nat, evs: seq<Event>): Pager
    decreases |evs|
  {
    if evs == [] then p else Run(Step(p, count, evs[0]), count, evs[1..])
  }

  /** Every event keeps the index in range and moves it by at most one page. */
  lemma StepBounded(p: Pager, count: nat, ev: Event)
    requires InRange(p, count)
    ensures InRange(Step(p, count, ev), count)
    ensures -1 <= Step(p, count, ev).index - p.index <= 1
  {
  }

  /** Only a touch end changes the page. */
  lemma OnlyTouchEndMoves(p: Pager, count: nat, ev: Event)
    requires !ev.TouchEnded?
    ensures Step(p, count, ev).index == p.index
  {
  }

  /** While the pager is locked, touch starts and touch ends are dropped: the
      page and the recorded heights stay as they are. */
  lemma LockedDropsTouches(p: Pager, count: nat, y: real, onControls: bool)
    requires p.isScrolling
    ensures TouchStart(p, y, onControls) == p
    ensures TouchEnd(p, count) == p.(isTouching := false)
  {
  }

  /** From any state in range, every sequence of events keeps the index in range. */
  lemma {:induction false} RunInRange(p: Pager, count: nat, evs: seq<Event>)
    requires InRange(p, count)
    ensures InRange(Run(p, count, evs), count)
    decreases |evs|
  {
    if evs != [] {
      StepBounded(p, count, evs[0]);
      RunInRange(Step(p, count, evs[0]), count, evs[1..]);
    }
  }

  /** After a page move, nothing moves the page again until the lock expires. */
  lemma {:induction false} LockHoldsPage(p: Pager, count: nat, evs: seq<Event>)
    requires p.isScrolling
    requires forall i :: 0 <= i < |evs| ==> !evs[i].LockExpired?
    ensures Run(p, count, evs).index == p.index
    ensures Run(p, count, evs).isScrolling
    decreases |evs|
  {
    if evs != [] {
      var q := Step(p, count, evs[0]);
      assert q.index == p.index && q.isScrolling;
      assert forall i :: 0 <= i < |evs[1..]| ==> !evs[1..][i].LockExpired?;
      LockHoldsPage(q, count, evs[1..]);
    }
  }

  /** A touch inside the bottom controls changes nothing, and neither do the
      moves and the end that follow it. */
  lemma ControlsTouchIgnored(p: Pager, count: nat, y: real, moves: seq<real>)
    requires !p.isTouching
    ensures Run(p, count, [TouchStarted(y, true)] + seq(|moves|, i requires 0 <= i < |moves| => TouchMoved(moves[i])) + [TouchEnded])
              == p.(isTouching := false)
  {
    var evs := [TouchStarted(y, true)] + seq(|moves|, i requires 0 <= i < |moves| => TouchMoved(moves[i])) + [TouchEnded];
    MovesIgnored(p, count, seq(|moves|, i requires 0 <= i < |moves| => TouchMoved(moves[i])) + [TouchEnded]);
    assert evs[1..] == seq(|moves|, i requires 0 <= i < |moves| => TouchMoved(moves[i])) + [TouchEnded];
  }

  /** Moves while no touch is recorded change nothing; the final end only
      clears the touching flag. */
  lemma {:induction false} MovesIgnored(p: Pager, count: nat, evs: seq<Event>)
    requires !p.isTouching && |evs| > 0 && evs[|evs| - 1] == TouchEnded
    requires forall i :: 0 <= i < |evs| - 1 ==> evs[i].TouchMoved?
    ensures Run(p, count, evs) == p
    decreases |evs|
  {
    if |evs| > 1 {
      assert Step(p, count, evs[0]) == p;
      assert forall i :: 0 <= i < |evs[1..]| - 1 ==> evs[1..][i].TouchMoved?;
      MovesIgnored(p, count, evs[1..]);
    } else {
      assert Run(TouchEnd(p, count), count, []) == TouchEnd(p, count);
    }
  }

  /** A full swipe gesture: touching at `startY`, moving to `endY` and
      lifting. It turns the page exactly as `SwipeTarget` says and locks the
      pager exactly when the page changed. */
  lemma SwipeGesture(p: Pager, count: nat, startY: real, endY: real)
    requires !p.isTouching && !p.isScrolling && startY != 0.0 && endY != 0.0
    ensures var r := Run(p, count, [TouchStarted(startY, false), TouchMoved(endY), TouchEnded]);
      r.index == SwipeTarget(p.index, count, startY - endY) &&
      (r.isScrolling <==> r.index != p.index) && !r.isTouching
  {
    var evs := [TouchStarted(startY, false), TouchMoved(endY), TouchEnded];
    var p1 := TouchStart(p, startY, false);
    var p2 := TouchMove(p1, endY);
    assert evs[1..] == [TouchMoved(endY), TouchEnded] && evs[1..][1..] == [TouchEnded];
    assert Run(p2, count, [TouchEnded]) == TouchEnd(p2, count) by {
      assert [TouchEnded][1..] == [];
    }
    assert Run(p, count, evs) == TouchEnd(p2, count);
  }

  /** The pagination refs and state as an object. */
  class SwipeController {
    const count: nat             // articles.length
    var currentIndex: nat
    var isScrolling: bool
    var isTouching: bool
    var touchStartY: real
    var touchEndY: real

    function Snapshot(): Pager
      reads this
    {
      Pager(currentIndex, isScrolling, isTouching, touchStartY, touchEndY)
    }

    constructor (count: nat)
      ensures Snapshot() == Initial() && this.count == count
    {
      this.count := count;
      currentIndex := 0;
      isScrolling := false;
      isTouching := false;
      touchStartY := 0.0;
      touchEndY := 0.0;
    }

    method HandleTouchStart(y: real, onControls: bool)
      modifies this
      ensures Snapshot() == TouchStart(old(Snapshot()), y, onControls)
    {
      if onControls {
        return;
      }
      if isTouching || isScrolling {
        return;
      }
      isTouching := true;
      touchStartY := y;
      touchEndY := y;
    }

    method HandleTouchMove(y: real)
      modifies this
      ensures Snapshot() == TouchMove(old(Snapshot()), y)
    {
      if !isTouching {
        return;
      }
      touchEndY := y;
    }

    method HandleTouchEnd()
      modifies this
      ensures Snapshot() == TouchEnd(old(Snapshot()), count)
    {
      if !isTouching || isScrolling {
        isTouching := false;
        return;
      }
      var startY, endY := touchStartY, touchEndY;
      isTouching := false;
      if startY == 0.0 || endY == 0.0 || startY == endY {
        touchStartY := 0.0;
        touchEndY := 0.0;
        return;
      }
      var distance := startY - endY;
      if distance > MinSwipeDistance && currentIndex < count - 1 {
        isScrolling := true;
        currentIndex := currentIndex + 1;
      } else if distance < -MinSwipeDistance && currentIndex > 0 {
        isScrolling := true;
        currentIndex := currentIndex - 1;
      }
      touchStartY := 0.0;
      touchEndY := 0.0;
    }

    /** The 600 ms timer set by a page move fires. */
    method OnLockExpired()
      modifies this
      ensures Snapshot() == Unlock(old(Snapshot()))
    {
      isScrolling := false;
    }
  }
}
