/** The abstract `UIViewPropertyAnimator` the flip engine arms, and the
    arithmetic that turns a vertical drag into animator progress. Timing,
    easing curves and the animated transforms are not part of this model;
    an animator is only its status, its fraction complete and the action of
    the completion closure the view attached to it. */
module Animation {

  /** `FlipDirection`: `.next` flips the top flap first, `.previous` the
      bottom flap. */
  datatype FlipDirection = Next | Previous

  /** Armed: created but not started; Running: `startAnimation()` was
      called; Finished: it ran to its end and its completion closure ran. */
  datatype Status = Armed | Running | Finished

  /** What the completion closure attached by the view does.
      StartBottom / StartTop: the leading flap's closure, which starts the
      animator then held in the other flap's slot.
      Settle: the primary animator's closure, which writes `token` into the
      static tile(s), removes both overlays and clears the three slots. */
  datatype Completion =
    | NoCompletion
    | StartBottom
    | StartTop
    | Settle(token: char, direction: FlipDirection)

  datatype Animator = Animator(status: Status, fraction: real, onComplete: Completion)

  /** `startAnimation()`: an armed animator starts running; one that is
      already running or has finished is left as it is. A started animator
      is never armed, and it either runs or is the animator it was. */
  function Start(a: Animator): (r: Animator)
    ensures r.status != Armed
    ensures r.status == Running || r == a
    ensures r.fraction == a.fraction && r.onComplete == a.onComplete
    ensures a.status == Finished ==> r == a
  {
    if a.status == Armed then a.(status := Running) else a
  }

  /** Swift `min`: the second argument when it is strictly smaller. */
  function Min(a: real, b: real): (r: real)
    ensures r <= a && r <= b && (r == a || r == b)
  {
    if b < a then b else a
  }

  /** Swift `max`: the second argument when it is at least as large. */
  function Max(a: real, b: real): (r: real)
    ensures r >= a && r >= b && (r == a || r == b)
  {
    if b >= a then b else a
  }

  function Abs(x: real): (r: real)
    ensures r >= 0.0 && (r == x || r == -x)
  {
    if x < 0.0 then -x else x
  }

  /** Setting `fractionComplete`: the animator keeps the value clamped to
      [0, 1]. */
  function WithFraction(a: Animator, f: real): (r: Animator)
    ensures r.status == a.status && r.onComplete == a.onComplete
    ensures 0.0 <= r.fraction <= 1.0
    ensures 0.0 <= f <= 1.0 ==> r.fraction == f
    ensures f < 0.0 ==> r.fraction == 0.0
    ensures f > 1.0 ==> r.fraction == 1.0
  {
    a.(fraction := Max(0.0, Min(f, 1.0)))
  }

  /** The drag fraction of `didChangePan`: the vertical translation over the
      view's height, capped at 1. */
  function DragFraction(translationY: real, height: real): (f: real)
    requires height > 0.0
    ensures 0.0 <= f <= 1.0
    ensures f == 1.0 <==> Abs(translationY) >= height
    ensures f < 1.0 ==> f * height == Abs(translationY)
  {
    var q := Abs(translationY) / height;
    QuotientAtLeastOne(Abs(translationY), height);
    Min(q, 1.0)
  }

  lemma QuotientAtLeastOne(x: real, h: real)
    requires h > 0.0
    ensures (x / h) * h == x
    ensures x / h >= 1.0 <==> x >= h
  {
    var q := x / h;
    assert q * h == x;
    if q >= 1.0 {
      assert q * h - h == (q - 1.0) * h;
    } else {
      assert h - q * h == (1.0 - q) * h;
    }
  }

  /** The two half-rotation progresses of a drag whose total progress is
      `total`: stage 1 covers the first half of the total, stage 2 the
      second, each stretched to a full [0, 1] range. */
  datatype Stages = Stages(stage1: real, stage2: real)

  function SplitStages(total: real): (s: Stages)
    // the two halves together account for exactly the total progress
    ensures s.stage1 / 2.0 + s.stage2 / 2.0 == total
    ensures 0.0 <= total <= 1.0 ==> 0.0 <= s.stage1 <= 1.0 && 0.0 <= s.stage2 <= 1.0
    // the second half moves only once the first is complete
    ensures s.stage2 > 0.0 ==> s.stage1 == 1.0
    // the first half is complete exactly at the commit threshold
    ensures s.stage1 == 1.0 <==> total >= 0.5
    ensures s.stage2 == 0.0 <==> total <= 0.5
  {
    Stages(Min(total, 0.5) * 2.0, Max(total - 0.5, 0.0) * 2.0)
  }
}
