/** Clients of `SplitflapView` that play the part of the environment: the
    gesture recognizer and the animation clock firing completions. They
    state what a whole flip does, and exhibit the interleavings in which the
    view's bookkeeping goes wrong. */
module Scenarios {
  import opened Optional
  import opened TokenRing
  import opened Animation
  import opened Splitflap

  /** A flip in flight whose primary and leading flap are running plays out
      in the order the closures impose: the leading flap completes (and
      starts the trailing one, unless the release already did), the trailing
      flap completes, then the primary settles the labels. */
  method RunToCompletion(v: SplitflapView)
    requires v.Valid() && v.FlipArmed() && v.LeadingStartedFirst() && v.LabelsInFlight()
    requires v.PrimaryRunning() && v.Leading().status == Running
    requires v.Trailing().status != Finished
    modifies v
    ensures v.Valid() && v.Idle()
    ensures v.tokens == old(v.tokens) && v.currentIndex == old(v.currentIndex)
    ensures v.topLabel == old(v.FlipToken()) && v.bottomLabel == old(v.FlipToken())
    ensures old(v.Synced()) ==>
              v.topLabel == v.tokens[v.currentIndex] && v.bottomLabel == v.tokens[v.currentIndex]
  {
    ghost var token := v.FlipToken();
    if v.ArmedDirection() == Next {
      v.CompleteTopSegment();
      v.CompleteBottomSegment();
    } else {
      v.CompleteBottomSegment();
      v.CompleteTopSegment();
    }
    assert v.FlipToken() == token && v.LabelsInFlight();
    v.CompletePrimary();
  }

  /** A programmatic flip on an idle view with a positive duration ends idle
      with both static tiles showing the token the index moved to. */
  method ProgrammaticFlipSettles(v: SplitflapView, forward: bool, duration: real)
    requires v.Valid() && v.Idle() && v.tokens != []
    requires duration > 0.0
    modifies v
    ensures v.Valid() && v.Idle()
    ensures v.tokens == old(v.tokens)
    ensures v.currentIndex == WrapIndex(old(v.currentIndex), if forward then 1 else -1, |v.tokens|)
    ensures v.topLabel == v.CurrentToken() && v.bottomLabel == v.CurrentToken()
  {
    var accepted;
    if forward {
      accepted := v.NextToken(duration);
    } else {
      accepted := v.PreviousToken(duration);
    }
    RunToCompletion(v);
  }

  /** One uninterrupted pan on an idle view: begin, one change, release.
      The leading flap has been scrubbed to stage 1 of the drag and the
      trailing one to stage 2; after the release the primary and the
      leading flap run, and the trailing flap runs too exactly when the
      drag went at least half way. */
  method PanOnce(v: SplitflapView, velocityY: real, translationY: real, height: real)
    requires v.Valid() && v.Idle() && v.tokens != []
    requires velocityY != 0.0 && height > 0.0
    modifies v
    ensures v.Valid() && v.FlipArmed() && v.LeadingStartedFirst() && v.LabelsInFlight() && v.Synced()
    ensures v.tokens == old(v.tokens)
    ensures v.currentIndex == WrapIndex(old(v.currentIndex), if velocityY < 0.0 then -1 else 1, |v.tokens|)
    ensures v.ArmedDirection() == (if velocityY < 0.0 then Previous else Next)
    ensures v.PrimaryRunning() && v.Leading().status == Running
    ensures v.Trailing().status == (if DragFraction(translationY, height) >= 0.5 then Running else Armed)
    ensures v.Leading().fraction == SplitStages(DragFraction(translationY, height)).stage1
    ensures v.Trailing().fraction == SplitStages(DragFraction(translationY, height)).stage2
  {
    v.DidBeginPan(velocityY);
    v.DidChangePan(translationY, height);
    v.DidEndPan();
  }

  /** A pan on an idle view, released and left to the clock, ends idle with
      both static tiles showing the token the index moved to, whether or not
      the drag passed the commit threshold. */
  method InteractiveFlipSettles(v: SplitflapView, velocityY: real, translationY: real, height: real)
    requires v.Valid() && v.Idle() && v.tokens != []
    requires velocityY != 0.0 && height > 0.0
    modifies v
    ensures v.Valid() && v.Idle()
    ensures v.tokens == old(v.tokens)
    ensures v.currentIndex == WrapIndex(old(v.currentIndex), if velocityY < 0.0 then -1 else 1, |v.tokens|)
    ensures v.topLabel == v.CurrentToken() && v.bottomLabel == v.CurrentToken()
  {
    PanOnce(v, velocityY, translationY, height);
    RunToCompletion(v);
  }

  /** `n` taps on one half of an idle view, each flip left to finish before
      the next tap: `currentToken` is the token `n` places further round the
      ring (forwards for the top half, backwards for the bottom half), and
      both static tiles show it. */
  method TapsWalkTheRing(v: SplitflapView, top: bool, n: nat)
    requires v.Valid() && v.Idle() && v.tokens != []
    modifies v
    ensures v.Valid() && v.Idle() && v.tokens == old(v.tokens)
    ensures v.CurrentToken() ==
              v.tokens[(if top then old(v.currentIndex) + n else old(v.currentIndex) - n) % |v.tokens|]
    ensures n > 0 ==> v.topLabel == v.CurrentToken() && v.bottomLabel == v.CurrentToken()
  {
    ghost var start := v.currentIndex;
    var k := 0;
    while k < n
      invariant 0 <= k <= n
      invariant v.Valid() && v.Idle() && v.tokens == old(v.tokens)
      invariant v.currentIndex == (if top then start + k else start - k) % |v.tokens|
      invariant k > 0 ==> v.topLabel == v.CurrentToken() && v.bottomLabel == v.CurrentToken()
    {
      ghost var before := v.currentIndex;
      if top {
        v.HandleTopTapGesture();
      } else {
        v.HandleBottomTapGesture();
      }
      RunToCompletion(v);
      WrapIndexIsMod(before, if top then 1 else -1, |v.tokens|);
      ModAddLeft(if top then start + k else start - k, if top then 1 else -1, |v.tokens|);
      k := k + 1;
    }
  }

  /** A run of programmatic flips on an idle view, one per step of `steps`
      (+1 for `nextToken`, -1 for `previousToken`), each left to finish
      before the next: the index is the ring walk of the steps, that is the
      start plus their sum modulo the count, and both tiles show the token
      there. */
  method FlipsFollowSteps(v: SplitflapView, steps: seq<int>, duration: real)
    requires v.Valid() && v.Idle() && v.tokens != []
    requires forall k :: 0 <= k < |steps| ==> steps[k] == 1 || steps[k] == -1
    requires duration > 0.0
    modifies v
    ensures v.Valid() && v.Idle() && v.tokens == old(v.tokens)
    ensures v.currentIndex == Walk(old(v.currentIndex), steps, |v.tokens|)
    ensures v.currentIndex == (old(v.currentIndex) + Sum(steps)) % |v.tokens|
    ensures steps != [] ==> v.topLabel == v.CurrentToken() && v.bottomLabel == v.CurrentToken()
  {
    ghost var start := v.currentIndex;
    var k := 0;
    while k < |steps|
      invariant 0 <= k <= |steps|
      invariant v.Valid() && v.Idle() && v.tokens == old(v.tokens)
      invariant v.currentIndex == Walk(start, steps[..k], |v.tokens|)
      invariant k > 0 ==> v.topLabel == v.CurrentToken() && v.bottomLabel == v.CurrentToken()
    {
      ghost var before := v.currentIndex;
      var accepted;
      if steps[k] == 1 {
        accepted := v.NextToken(duration);
      } else {
        accepted := v.PreviousToken(duration);
      }
      RunToCompletion(v);
      assert v.currentIndex == Walk(before, [steps[k]], |v.tokens|);
      WalkConcat(start, steps[..k], [steps[k]], |v.tokens|);
      assert steps[..k] + [steps[k]] == steps[..k + 1];
      k := k + 1;
    }
    assert steps[..k] == steps;
    WalkIsModularSum(start, steps, |v.tokens|);
  }

  /** Worked examples on the ring "ABC". */
  method RingExamples()
  {
    var v := new SplitflapView("ABC");
    var accepted := v.NextToken(0.4);
    assert accepted && v.currentIndex == 1 && v.CurrentToken() == 'B';
    assert v.overlayTop == Some('A') && v.overlayBottom == Some('B') && v.topLabel == 'B';
    accepted := v.PreviousToken(0.4);
    assert !accepted;
    RunToCompletion(v);
    assert v.topLabel == 'B' && v.bottomLabel == 'B';

    var w := new SplitflapView("ABC");
    accepted := w.PreviousToken(0.0);
    assert accepted && w.currentIndex == 2 && w.Idle();
    assert w.topLabel == 'C' && w.bottomLabel == 'C';

    // a backward drag of 0.3 of the height: bottom flap at 0.6, top at 0
    var p := new SplitflapView("ABC");
    assert DragFraction(30.0, 100.0) == 0.3;
    PanOnce(p, -1.0, 30.0, 100.0);
    assert p.currentIndex == 2;
    assert p.bottomSegmentAnimator.value.fraction == 0.6 && p.bottomSegmentAnimator.value.status == Running;
    assert p.topSegmentAnimator.value.fraction == 0.0 && p.topSegmentAnimator.value.status == Armed;

    // a view with no tokens shows the segment views' initial '0'
    var e := new SplitflapView([]);
    assert e.topLabel == '0' && e.bottomLabel == '0';
  }

  /** A pan that ends in a state other than `.ended` leaves its animators
      armed and never started. The next pan is not refused: it moves the
      index again but arms nothing, the taps stay refused, and when the old
      flip finally completes the tiles show a token that is not the current
      one. */
  method StalePanScenario()
  {
    var v := new SplitflapView("ABC");
    v.DidBeginPan(1.0);
    assert v.currentIndex == 1 && v.FlipToken() == 'B' && !v.PrimaryRunning();
    // the recognizer is cancelled: no handler runs
    v.DidBeginPan(1.0);
    assert v.currentIndex == 2 && v.FlipToken() == 'B';
    assert !v.Synced();
    var accepted := v.NextToken(0.4);
    assert !accepted;
    v.DidEndPan();
    RunToCompletion(v);
    assert v.topLabel == 'B' && v.bottomLabel == 'B' && v.CurrentToken() == 'C';
  }

  /** `flipAnimationDirection` is set only by `didBeginPan`. After a stale
      backward flip, a forward pan begin flips that field without arming;
      the release then starts the top flap, which trails in a backward flip,
      while the leading bottom flap is never started. */
  method MismatchedReleaseScenario()
  {
    var v := new SplitflapView("ABC");
    v.DidBeginPan(-1.0);
    assert v.ArmedDirection() == Previous;
    // the recognizer is cancelled: no handler runs
    v.DidBeginPan(1.0);
    assert v.flipAnimationDirection == Next && v.ArmedDirection() == Previous;
    v.DidEndPan();
    assert v.Trailing().status == Running && v.Leading().status == Armed;
    assert !v.LeadingStartedFirst();
  }
}
