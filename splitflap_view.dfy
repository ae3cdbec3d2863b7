/** The flip engine of `SplitflapView`: the token ring, the busy gate, the
    choreography of the three animators and the interactive pan path. The
    view's subviews are reduced to their labels; "animator X completes" is
    an event of the environment, a method that runs that animator's
    completion closure. */
module Splitflap {
  import opened Optional
  import opened TokenRing
  import opened Animation

  /** `Constants.defaultAnimationDuration`, in seconds. */
  const DefaultAnimationDuration: real := 0.4

  /** The text a segment view's digit label is created with. */
  const InitialLabel: char := '0'

  /** `slot?.startAnimation()`: an empty slot stays empty; the animator in
      a full one is no longer armed, keeps its fraction and closure, and is
      left as it was unless it now runs. */
  function StartSlot(slot: Option<Animator>): (r: Option<Animator>)
    ensures r.Some? == slot.Some?
    ensures r.Some? ==>
              && r.value.status != Armed
              && (r.value.status == Running || r == slot)
              && r.value.fraction == slot.value.fraction
              && r.value.onComplete == slot.value.onComplete
    ensures slot.Some? && slot.value.status == Finished ==> r == slot
  {
    if slot.Some? then Some(Start(slot.value)) else None
  }

  /** `slot?.fractionComplete = f`: an empty slot stays empty; the animator
      in a full one keeps its status and closure and takes `f`, clamped to
      [0, 1]. */
  function SetSlotFraction(slot: Option<Animator>, f: real): (r: Option<Animator>)
    ensures r.Some? == slot.Some?
    ensures r.Some? ==>
              && r.value.status == slot.value.status
              && r.value.onComplete == slot.value.onComplete
              && 0.0 <= r.value.fraction <= 1.0
              && (0.0 <= f <= 1.0 ==> r.value.fraction == f)
  {
    if slot.Some? then Some(WithFraction(slot.value, f)) else None
  }

  class SplitflapView {
    var tokens: seq<char>
    var currentIndex: int
    /** The characters on the static top and bottom tiles (`topSegmentView`,
        `bottomSegmentView`); a segment view starts out showing
        `InitialLabel`. */
    var topLabel: char
    var bottomLabel: char
    /** The labels of the overlay tiles (`animTopSegmentView`,
        `animBottomSegmentView`); None while no overlay exists. */
    var overlayTop: Option<char>
    var overlayBottom: Option<char>
    var primaryAnimator: Option<Animator>
    var topSegmentAnimator: Option<Animator>
    var bottomSegmentAnimator: Option<Animator>
    var animationProgress: real
    var flipAnimationDirection: FlipDirection

    /** No flip in flight: no overlay and no animator. */
    ghost predicate Idle()
      reads this
    {
      && primaryAnimator.None? && topSegmentAnimator.None? && bottomSegmentAnimator.None?
      && overlayTop.None? && overlayBottom.None?
    }

    /** A flip in flight: both overlays and all three animators exist, the
        primary carries the settling closure and has not finished, and the
        leading flap of the flip's direction carries the closure that starts
        the trailing one. */
    ghost predicate FlipArmed()
      reads this
    {
      && primaryAnimator.Some? && topSegmentAnimator.Some? && bottomSegmentAnimator.Some?
      && overlayTop.Some? && overlayBottom.Some?
      && primaryAnimator.value.onComplete.Settle?
      && primaryAnimator.value.status != Finished
      && (primaryAnimator.value.onComplete.direction == Next ==>
            topSegmentAnimator.value.onComplete == StartBottom
            && bottomSegmentAnimator.value.onComplete == NoCompletion)
      && (primaryAnimator.value.onComplete.direction == Previous ==>
            bottomSegmentAnimator.value.onComplete == StartTop
            && topSegmentAnimator.value.onComplete == NoCompletion)
      && 0.0 <= primaryAnimator.value.fraction <= 1.0
      && 0.0 <= topSegmentAnimator.value.fraction <= 1.0
      && 0.0 <= bottomSegmentAnimator.value.fraction <= 1.0
    }

    ghost predicate Valid()
      reads this
    {
      && (tokens == [] ==> currentIndex == 0 && Idle())
      && (tokens != [] ==> 0 <= currentIndex < |tokens|)
      && (Idle() || FlipArmed())
      && 0.0 <= animationProgress <= 1.0
    }

    /** The direction the flip in flight was armed for. */
    function ArmedDirection(): FlipDirection
      reads this
      requires FlipArmed()
    {
      primaryAnimator.value.onComplete.direction
    }

    /** The token the flip in flight settles on. */
    function FlipToken(): char
      reads this
      requires FlipArmed()
    {
      primaryAnimator.value.onComplete.token
    }

    function Leading(): Animator
      reads this
      requires FlipArmed()
    {
      if ArmedDirection() == Next then topSegmentAnimator.value else bottomSegmentAnimator.value
    }

    function Trailing(): Animator
      reads this
      requires FlipArmed()
    {
      if ArmedDirection() == Next then bottomSegmentAnimator.value else topSegmentAnimator.value
    }

    /** The leading flap was started no later than the trailing one: the
        trailing half-rotation is never under way while the leading one is
        still armed. */
    ghost predicate LeadingStartedFirst()
      reads this
    {
      FlipArmed() ==> (Trailing().status != Armed ==> Leading().status != Armed)
    }

    /** Label bookkeeping of a flip in flight: the static half the flap
        uncovers first and the overlay that rotates in both show the token
        the flip settles on. */
    ghost predicate LabelsInFlight()
      reads this
    {
      FlipArmed() ==>
        && (ArmedDirection() == Next ==>
              topLabel == FlipToken() && overlayBottom == Some(FlipToken()))
        && (ArmedDirection() == Previous ==>
              bottomLabel == FlipToken() && overlayTop == Some(FlipToken()))
    }

    /** The flip in flight settles on the current token. */
    ghost predicate Synced()
      reads this
    {
      FlipArmed() ==> 0 <= currentIndex < |tokens| && FlipToken() == tokens[currentIndex]
    }

    /** `primaryAnimator?.isRunning ?? false`. */
    predicate PrimaryRunning()
      reads this
    {
      primaryAnimator.Some? && primaryAnimator.value.status == Running
    }

    /** The state right after arming a flip in `direction` towards `token`
        from static labels `oldTop` / `oldBottom`: overlays and static labels
        set up for the direction, three fresh animators with their closures,
        primary and leading flap started unless the flip is interactive. */
    ghost predicate JustArmed(direction: FlipDirection, token: char, interactive: bool,
                              oldTop: char, oldBottom: char)
      reads this
    {
      var started := if interactive then Armed else Running;
      && animationProgress == 0.0
      && primaryAnimator == Some(Animator(started, 0.0, Settle(token, direction)))
      && match direction
         case Next =>
           && overlayTop == Some(oldTop) && overlayBottom == Some(token)
           && topLabel == token && bottomLabel == oldBottom
           && topSegmentAnimator == Some(Animator(started, 0.0, StartBottom))
           && bottomSegmentAnimator == Some(Animator(Armed, 0.0, NoCompletion))
         case Previous =>
           && overlayTop == Some(token) && overlayBottom == Some(oldBottom)
           && topLabel == oldTop && bottomLabel == token
           && topSegmentAnimator == Some(Animator(Armed, 0.0, NoCompletion))
           && bottomSegmentAnimator == Some(Animator(started, 0.0, StartTop))
    }

    /** The effect of moving the index by `value` and arming a flip towards
        the new token: with no positive duration both static labels show it
        at once and nothing is armed. */
    twostate predicate FlippedTo(value: int, direction: FlipDirection, duration: real, interactive: bool)
      reads this
    {
      && tokens == old(tokens)
      && currentIndex == WrapIndex(old(currentIndex), value, |tokens|)
      && 0 <= currentIndex < |tokens|
      && (duration <= 0.0 ==>
            && Idle() && animationProgress == old(animationProgress)
            && topLabel == tokens[currentIndex] && bottomLabel == tokens[currentIndex])
      && (duration > 0.0 ==>
            JustArmed(direction, tokens[currentIndex], interactive, old(topLabel), old(bottomLabel)))
    }

    /** `init(tokens:)`, and `init?(coder:)` with no tokens. */
    constructor (tokens: seq<char>)
      ensures Valid() && Idle()
      ensures this.tokens == tokens && currentIndex == 0
      ensures tokens != [] ==> topLabel == tokens[0] && bottomLabel == tokens[0]
      ensures tokens == [] ==> topLabel == InitialLabel && bottomLabel == InitialLabel
      ensures animationProgress == 0.0 && flipAnimationDirection == Next
    {
      this.tokens := tokens;
      currentIndex := 0;
      topLabel, bottomLabel := InitialLabel, InitialLabel;
      overlayTop, overlayBottom := None, None;
      primaryAnimator, topSegmentAnimator, bottomSegmentAnimator := None, None, None;
      animationProgress := 0.0;
      flipAnimationDirection := Next;
      new;
      if tokens != [] {
        RedrawToken();
      }
    }

    /** `currentToken`: reading it on an empty sequence traps. */
    function CurrentToken(): char
      reads this
      requires 0 <= currentIndex < |tokens|
    {
      tokens[currentIndex]
    }

    /** The `tokens` setter as written: clamp with `min(currentIndex, count)`,
        then redraw, which traps unless the clamped index is readable. */
    method SetTokens(newTokens: seq<char>)
      requires Valid()
      requires ClampIndexAsWritten(currentIndex, |newTokens|) < |newTokens|
      modifies this`tokens, this`currentIndex, this`topLabel, this`bottomLabel
      ensures Valid()
      ensures tokens == newTokens
      ensures currentIndex == ClampIndexAsWritten(old(currentIndex), |newTokens|)
      ensures currentIndex == old(currentIndex)
      ensures topLabel == tokens[currentIndex] && bottomLabel == tokens[currentIndex]
    {
      tokens := newTokens;
      currentIndex := ClampIndexAsWritten(currentIndex, |tokens|);
      RedrawToken();
    }

    /** The `tokens` setter with the intended clamp to the last valid index:
        every non-empty sequence is accepted. */
    method SetTokensClamped(newTokens: seq<char>)
      requires Valid()
      requires newTokens != []
      modifies this`tokens, this`currentIndex, this`topLabel, this`bottomLabel
      ensures Valid()
      ensures tokens == newTokens
      ensures currentIndex == ClampIndex(old(currentIndex), |newTokens|)
      ensures topLabel == tokens[currentIndex] && bottomLabel == tokens[currentIndex]
    {
      tokens := newTokens;
      currentIndex := ClampIndex(currentIndex, |tokens|);
      RedrawToken();
    }

    /** `updateIndex(by:)`. */
    method UpdateIndex(value: int)
      modifies this`currentIndex
      ensures currentIndex == WrapIndex(old(currentIndex), value, |tokens|)
    {
      var index := currentIndex + value;
      if index < 0 {
        index := index + |tokens|;
      } else if index >= |tokens| {
        index := index - |tokens|;
      }
      currentIndex := index;
    }

    /** `redrawToken()`: both static tiles show the current token. */
    method RedrawToken()
      requires 0 <= currentIndex < |tokens|
      modifies this`topLabel, this`bottomLabel
      ensures topLabel == tokens[currentIndex] && bottomLabel == tokens[currentIndex]
    {
      var token := tokens[currentIndex];
      topLabel := token;
      bottomLabel := token;
    }

    /** `nextToken(withDuration:)`: refused while a primary animator exists;
        otherwise the index moves forward and a flip is armed. */
    method NextToken(duration: real) returns (accepted: bool)
      requires Valid() && tokens != []
      modifies this
      ensures Valid()
      ensures accepted == old(primaryAnimator.None?)
      ensures !accepted ==> unchanged(this)
      ensures accepted ==> FlippedTo(1, Next, duration, false) && LeadingStartedFirst() && LabelsInFlight() && Synced()
      ensures flipAnimationDirection == old(flipAnimationDirection)
    {
      if primaryAnimator.Some? {
        return false;
      }
      UpdateIndex(1);
      AnimateToNextToken(duration, false);
      return true;
    }

    /** `previousToken(withDuration:)`: refused while a primary animator
        exists; otherwise the index moves back and a flip is armed. */
    method PreviousToken(duration: real) returns (accepted: bool)
      requires Valid() && tokens != []
      modifies this
      ensures Valid()
      ensures accepted == old(primaryAnimator.None?)
      ensures !accepted ==> unchanged(this)
      ensures accepted ==> FlippedTo(-1, Previous, duration, false) && LeadingStartedFirst() && LabelsInFlight() && Synced()
      ensures flipAnimationDirection == old(flipAnimationDirection)
    {
      if primaryAnimator.Some? {
        return false;
      }
      UpdateIndex(-1);
      AnimateToPreviousToken(duration, false);
      return true;
    }

    /** A tap on the top half: `nextToken()` with the default duration. */
    method HandleTopTapGesture()
      requires Valid() && tokens != []
      modifies this
      ensures Valid()
      ensures old(primaryAnimator.Some?) ==> unchanged(this)
      ensures old(primaryAnimator.None?) ==>
                FlippedTo(1, Next, DefaultAnimationDuration, false) && LeadingStartedFirst() && LabelsInFlight() && Synced()
      ensures flipAnimationDirection == old(flipAnimationDirection)
    {
      if primaryAnimator.Some? {
        return;
      }
      var accepted := NextToken(DefaultAnimationDuration);
    }

    /** A tap on the bottom half: `previousToken()` with the default duration. */
    method HandleBottomTapGesture()
      requires Valid() && tokens != []
      modifies this
      ensures Valid()
      ensures old(primaryAnimator.Some?) ==> unchanged(this)
      ensures old(primaryAnimator.None?) ==>
                FlippedTo(-1, Previous, DefaultAnimationDuration, false) && LeadingStartedFirst() && LabelsInFlight() && Synced()
      ensures flipAnimationDirection == old(flipAnimationDirection)
    {
      if primaryAnimator.Some? {
        return;
      }
      var accepted := PreviousToken(DefaultAnimationDuration);
    }

    /** `didBeginPan`: refused only while the primary animator is running;
        the sign of the vertical velocity picks the direction. An existing
        primary that is not running (a pan that ended in a state other than
        `.ended`) lets the index move while arming nothing. */
    method DidBeginPan(velocityY: real)
      requires Valid()
      requires tokens != [] || velocityY == 0.0
      modifies this
      ensures Valid() && (old(LeadingStartedFirst()) ==> LeadingStartedFirst())
      ensures old(PrimaryRunning()) || velocityY == 0.0 ==> unchanged(this)
      ensures !old(PrimaryRunning()) && velocityY != 0.0 ==>
                var direction := if velocityY < 0.0 then Previous else Next;
                && flipAnimationDirection == direction
                && (old(primaryAnimator.None?) ==>
                      FlippedTo(if velocityY < 0.0 then -1 else 1, direction, DefaultAnimationDuration, true)
                      && LabelsInFlight() && Synced())
                && (old(primaryAnimator.Some?) ==>
                      && tokens == old(tokens)
                      && currentIndex == WrapIndex(old(currentIndex), if velocityY < 0.0 then -1 else 1, |tokens|)
                      && topLabel == old(topLabel) && bottomLabel == old(bottomLabel)
                      && overlayTop == old(overlayTop) && overlayBottom == old(overlayBottom)
                      && primaryAnimator == old(primaryAnimator)
                      && topSegmentAnimator == old(topSegmentAnimator)
                      && bottomSegmentAnimator == old(bottomSegmentAnimator)
                      && animationProgress == primaryAnimator.value.fraction)
    {
      if PrimaryRunning() {
        return;
      }
      if velocityY < 0.0 {
        flipAnimationDirection := Previous;
        UpdateIndex(-1);
        AnimateToPreviousToken(DefaultAnimationDuration, true);
      } else if velocityY > 0.0 {
        flipAnimationDirection := Next;
        UpdateIndex(1);
        AnimateToNextToken(DefaultAnimationDuration, true);
      } else {
        return;
      }
      animationProgress := if primaryAnimator.Some? then primaryAnimator.value.fraction else 0.0;
    }

    /** `didChangePan`: the drag fraction plus the progress carried from the
        pan's beginning is the primary's fraction; its two halves drive the
        two flaps, stage 1 to the top flap for `.next` and to the bottom flap
        for `.previous`. Without a primary animator nothing happens. */
    method DidChangePan(translationY: real, height: real)
      requires Valid()
      requires height > 0.0
      modifies this`primaryAnimator, this`topSegmentAnimator, this`bottomSegmentAnimator
      ensures Valid() && (old(LeadingStartedFirst()) ==> LeadingStartedFirst())
      ensures old(primaryAnimator.None?) ==> unchanged(this)
      ensures old(primaryAnimator.Some?) ==>
                var total := DragFraction(translationY, height) + animationProgress;
                var stages := SplitStages(total);
                && primaryAnimator == Some(WithFraction(old(primaryAnimator.value), total))
                && topSegmentAnimator == Some(WithFraction(old(topSegmentAnimator.value),
                     if flipAnimationDirection == Next then stages.stage1 else stages.stage2))
                && bottomSegmentAnimator == Some(WithFraction(old(bottomSegmentAnimator.value),
                     if flipAnimationDirection == Next then stages.stage2 else stages.stage1))
    {
      if primaryAnimator.None? {
        return;
      }
      var fraction := DragFraction(translationY, height);
      var totalProgress := fraction + animationProgress;
      primaryAnimator := SetSlotFraction(primaryAnimator, totalProgress);
      var stages := SplitStages(totalProgress);
      topSegmentAnimator := SetSlotFraction(topSegmentAnimator,
        if flipAnimationDirection == Next then stages.stage1 else stages.stage2);
      bottomSegmentAnimator := SetSlotFraction(bottomSegmentAnimator,
        if flipAnimationDirection == Next then stages.stage2 else stages.stage1);
    }

    /** `didEndPan`: the flap that leads for `flipAnimationDirection` and the
        primary are started; the other flap is started directly only when
        the primary is at least half way, otherwise it waits for the leading
        flap's completion. */
    method DidEndPan()
      requires Valid()
      modifies this`primaryAnimator, this`topSegmentAnimator, this`bottomSegmentAnimator
      ensures Valid()
      ensures var overHalfWay := old(primaryAnimator.Some? && primaryAnimator.value.fraction >= 0.5);
                && primaryAnimator == StartSlot(old(primaryAnimator))
                && topSegmentAnimator ==
                     (if flipAnimationDirection == Next || overHalfWay
                      then StartSlot(old(topSegmentAnimator)) else old(topSegmentAnimator))
                && bottomSegmentAnimator ==
                     (if flipAnimationDirection == Previous || overHalfWay
                      then StartSlot(old(bottomSegmentAnimator)) else old(bottomSegmentAnimator))
      ensures FlipArmed() ==> Leading().status != Armed || flipAnimationDirection != ArmedDirection()
      ensures old(LeadingStartedFirst()) && (Idle() || flipAnimationDirection == ArmedDirection()) ==> LeadingStartedFirst()
    {
      var overHalfWay := primaryAnimator.Some? && primaryAnimator.value.fraction >= 0.5;
      if flipAnimationDirection == Next {
        topSegmentAnimator := StartSlot(topSegmentAnimator);
        if overHalfWay {
          bottomSegmentAnimator := StartSlot(bottomSegmentAnimator);
        }
      } else {
        bottomSegmentAnimator := StartSlot(bottomSegmentAnimator);
        if overHalfWay {
          topSegmentAnimator := StartSlot(topSegmentAnimator);
        }
      }
      primaryAnimator := StartSlot(primaryAnimator);
    }

    /** `animateToNextToken`: refused while a primary animator exists; with
        no positive duration both static tiles show the token at once;
        otherwise the top overlay keeps the old top label, the bottom overlay
        and the static top show the new token, and the primary and top flap
        start together unless the flip is interactive. */
    method AnimateToNextToken(duration: real, interactive: bool)
      requires Valid() && tokens != []
      modifies this
      ensures Valid()
      ensures tokens == old(tokens) && currentIndex == old(currentIndex)
      ensures flipAnimationDirection == old(flipAnimationDirection)
      ensures old(primaryAnimator.Some?) ==> unchanged(this)
      ensures old(primaryAnimator.None?) && duration <= 0.0 ==>
                && Idle() && animationProgress == old(animationProgress)
                && topLabel == tokens[currentIndex] && bottomLabel == tokens[currentIndex]
      ensures old(primaryAnimator.None?) && duration > 0.0 ==>
                JustArmed(Next, tokens[currentIndex], interactive, old(topLabel), old(bottomLabel))
    {
      if primaryAnimator.Some? {
        return;
      }
      var token := tokens[currentIndex];
      if !(duration > 0.0) {
        topLabel := token;
        bottomLabel := token;
        return;
      }
      overlayTop := Some(topLabel);
      overlayBottom := Some(token);
      topLabel := token;
      primaryAnimator := Some(Animator(Armed, 0.0, Settle(token, Next)));
      topSegmentAnimator := Some(Animator(Armed, 0.0, StartBottom));
      bottomSegmentAnimator := Some(Animator(Armed, 0.0, NoCompletion));
      if !interactive {
        primaryAnimator := StartSlot(primaryAnimator);
        topSegmentAnimator := StartSlot(topSegmentAnimator);
      }
      if primaryAnimator.Some? {
        animationProgress := primaryAnimator.value.fraction;
      }
    }

    /** `animateToPreviousToken`: the mirror image of `animateToNextToken`;
        the top overlay and the static bottom show the new token, the bottom
        overlay keeps the old bottom label, and the bottom flap leads. */
    method AnimateToPreviousToken(duration: real, interactive: bool)
      requires Valid() && tokens != []
      modifies this
      ensures Valid()
      ensures tokens == old(tokens) && currentIndex == old(currentIndex)
      ensures flipAnimationDirection == old(flipAnimationDirection)
      ensures old(primaryAnimator.Some?) ==> unchanged(this)
      ensures old(primaryAnimator.None?) && duration <= 0.0 ==>
                && Idle() && animationProgress == old(animationProgress)
                && topLabel == tokens[currentIndex] && bottomLabel == tokens[currentIndex]
      ensures old(primaryAnimator.None?) && duration > 0.0 ==>
                JustArmed(Previous, tokens[currentIndex], interactive, old(topLabel), old(bottomLabel))
    {
      if primaryAnimator.Some? {
        return;
      }
      var token := tokens[currentIndex];
      if !(duration > 0.0) {
        topLabel := token;
        bottomLabel := token;
        return;
      }
      overlayTop := Some(token);
      overlayBottom := Some(bottomLabel);
      bottomLabel := token;
      primaryAnimator := Some(Animator(Armed, 0.0, Settle(token, Previous)));
      topSegmentAnimator := Some(Animator(Armed, 0.0, NoCompletion));
      bottomSegmentAnimator := Some(Animator(Armed, 0.0, StartTop));
      if !interactive {
        primaryAnimator := StartSlot(primaryAnimator);
        bottomSegmentAnimator := StartSlot(bottomSegmentAnimator);
      }
      if primaryAnimator.Some? {
        animationProgress := primaryAnimator.value.fraction;
      }
    }

    /** The running primary animator completes: its closure writes the
        settled token into the static tile(s) (the bottom one for `.next`,
        both for `.previous`), removes both overlays and clears all three
        animator slots, which reopens the busy gate. */
    method CompletePrimary()
      requires Valid() && PrimaryRunning()
      modifies this`topLabel, this`bottomLabel, this`overlayTop, this`overlayBottom
      modifies this`primaryAnimator, this`topSegmentAnimator, this`bottomSegmentAnimator
      ensures Valid() && Idle()
      ensures var settle := old(primaryAnimator.value.onComplete);
                && bottomLabel == settle.token
                && topLabel == (if settle.direction == Previous then settle.token else old(topLabel))
      ensures old(LabelsInFlight()) ==>
                topLabel == old(FlipToken()) && bottomLabel == old(FlipToken())
      ensures old(LabelsInFlight() && Synced()) ==>
                topLabel == tokens[currentIndex] && bottomLabel == tokens[currentIndex]
    {
      var settle := primaryAnimator.value.onComplete;
      var token := settle.token;
      if settle.direction == Next {
        bottomLabel := token;
      } else {
        topLabel := token;
        bottomLabel := token;
      }
      overlayTop, overlayBottom := None, None;
      primaryAnimator, topSegmentAnimator, bottomSegmentAnimator := None, None, None;
    }

    /** The running top flap animator completes; for a `.next` flip its
        closure starts the bottom flap animator. */
    method CompleteTopSegment()
      requires Valid()
      requires topSegmentAnimator.Some? && topSegmentAnimator.value.status == Running
      modifies this`topSegmentAnimator, this`bottomSegmentAnimator
      ensures Valid() && (old(LeadingStartedFirst()) ==> LeadingStartedFirst())
      ensures topSegmentAnimator == Some(old(topSegmentAnimator.value).(status := Finished, fraction := 1.0))
      ensures bottomSegmentAnimator ==
                if old(topSegmentAnimator.value.onComplete) == StartBottom
                then StartSlot(old(bottomSegmentAnimator)) else old(bottomSegmentAnimator)
    {
      var closure := topSegmentAnimator.value.onComplete;
      topSegmentAnimator := Some(topSegmentAnimator.value.(status := Finished, fraction := 1.0));
      if closure == StartBottom {
        bottomSegmentAnimator := StartSlot(bottomSegmentAnimator);
      }
    }

    /** The running bottom flap animator completes; for a `.previous` flip
        its closure starts the top flap animator. */
    method CompleteBottomSegment()
      requires Valid()
      requires bottomSegmentAnimator.Some? && bottomSegmentAnimator.value.status == Running
      modifies this`topSegmentAnimator, this`bottomSegmentAnimator
      ensures Valid() && (old(LeadingStartedFirst()) ==> LeadingStartedFirst())
      ensures bottomSegmentAnimator == Some(old(bottomSegmentAnimator.value).(status := Finished, fraction := 1.0))
      ensures topSegmentAnimator ==
                if old(bottomSegmentAnimator.value.onComplete) == StartTop
                then StartSlot(old(topSegmentAnimator)) else old(topSegmentAnimator)
    {
      var closure := bottomSegmentAnimator.value.onComplete;
      bottomSegmentAnimator := Some(bottomSegmentAnimator.value.(status := Finished, fraction := 1.0));
      if closure == StartTop {
        topSegmentAnimator := StartSlot(topSegmentAnimator);
      }
    }
  }
}
