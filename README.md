# Split-flap flip engine

A Dafny model of the flip engine inside `SplitflapView`, a UIKit view that shows one
split-flap tile cycling through a circular sequence of single-character tokens. The
model covers three parts of the view:

- **The token ring.** `tokens` and `currentIndex`, the wrap-around step `updateIndex(by:)`,
  the `tokens` setter's clamp, `currentToken` and `redrawToken`.
- **The busy gate and the flip choreography.** `nextToken` and `previousToken` are refused
  while a primary animator exists. `animateToNextToken` and `animateToPreviousToken` set up
  the static and overlay labels and arm three animators: the primary, the top flap and the
  bottom flap. The leading flap's completion closure starts the trailing flap. The primary's
  closure settles the labels, removes the overlays and clears every animator slot.
- **The interactive pan path.** `didBeginPan`, `didChangePan` and `didEndPan`.

`UIViewPropertyAnimator` is abstract here (module `Animation`). An animator is a status
(Armed, Running, Finished), a fraction in [0, 1] and the action of the completion closure
the view attached to it. "An animator completes" is an event of the environment:
`CompletePrimary`, `CompleteTopSegment` and `CompleteBottomSegment` each run that animator's
closure. A static tile's label is a `char`. A segment view is created showing '0'
(`SplitflapSegmentView.swift`, line 73), so a view built with no tokens shows '0' on both
tiles. An overlay label is `Option<char>`, and it is None while the overlay does not exist.
An array access that would trap in Swift is a `requires`.

Modules: `Optional` (option type), `TokenRing` (index arithmetic), `Animation` (animator
record, drag arithmetic), `Splitflap` (the class `SplitflapView`), `Scenarios` (clients that
play the gesture recognizer and the animation clock).

The model follows the code where it departs from the view's evident design. The verified
contracts expose the following:

- `didBeginPan` refuses only while the primary animator is *running*. A pan that ends in a
  state other than `.ended` leaves three armed animators that never start. A later pan
  begin then moves the index but arms nothing, because the arming methods refuse whenever a
  primary exists. The taps stay refused. When the stale flip completes, the tiles show a
  token that is not `currentToken` (`Scenarios.StalePanScenario`).
- `flipAnimationDirection` is written only by `didBeginPan`, not by the programmatic path.
  `didEndPan` picks the flap to start from that field. When the field disagrees with the
  direction of the flip in flight, the release can start the trailing flap while the
  leading one is never started (`Scenarios.MismatchedReleaseScenario`). `DidEndPan` keeps
  the invariant `LeadingStartedFirst` (the leading flap is never still armed once the trailing one has left the armed state) only when the two directions agree.
- The primary's closure for `.next` writes only the bottom label. The top label was set
  when the flip was armed. If `tokens` is replaced while a flip is in flight, the two tiles
  can end up showing different tokens. `CompletePrimary` promises equal labels only under
  `LabelsInFlight`. Arming establishes that invariant. Two operations can break it while a
  flip is in flight: the `tokens` setter, and the public `redrawToken()` whenever the flip
  does not settle on the current token (after a stale pan, for instance).

## Model

| member | source | states |
|---|---|---|
| TokenRing.WrapIndex | Sources/SplitflapView/SplitflapView.swift:155-165 | from an index in [0, n) with a step of magnitude at most n the result stays in [0, n); on an empty sequence the index just moves by the step (from 0, a step of +1 gives 1) |
| TokenRing.WrapIndexIsMod | Sources/SplitflapView/SplitflapView.swift:155-165 | within that range the single add-or-subtract equals (index + step) mod n |
| TokenRing.Walk | Sources/SplitflapView/SplitflapView.swift:155-165 | the index after a run of moves, each of magnitude at most n, from an index in [0, n) stays in [0, n) |
| TokenRing.WalkConcat | Sources/SplitflapView/SplitflapView.swift:155-165 | two runs of moves made one after the other reach the same index as the single combined run |
| TokenRing.WalkIsModularSum | Sources/SplitflapView/SplitflapView.swift:155-165 | after any run of steps, each of magnitude at most n, the index is (start + sum of steps) mod n and lies in [0, n) |
| TokenRing.ClampIndexAsWritten | Sources/SplitflapView/SplitflapView.swift:37-42 | the setter's `min(currentIndex, tokens.count)`: at most both arguments and equal to one of them |
| TokenRing.ClampIndexAsWrittenOverruns | Sources/SplitflapView/SplitflapView.swift:37-42 | when the index is at least the new count, the clamp returns the count itself, an index that `redrawToken` cannot read |
| TokenRing.ClampIndexAsWrittenExample | Sources/SplitflapView/SplitflapView.swift:37-42 | shrinking to two tokens with the index at 2 leaves it at 2 |
| TokenRing.ClampIndexAsWrittenNeverHelps | Sources/SplitflapView/SplitflapView.swift:37-42 | whenever the clamped index is readable, the clamp left it unchanged |
| TokenRing.ClampIndex | Sources/SplitflapView/SplitflapView.swift:37-42 | the intended clamp: the result is in [0, count), unchanged when it already fits, count - 1 otherwise |
| Animation.Start | Sources/SplitflapView/SplitflapView.swift:355-359 | after `startAnimation()` the animator is never armed. It is either running or exactly the animator it was, so a finished one stays finished. Its fraction and closure are kept |
| Animation.WithFraction | Sources/SplitflapView/SplitflapView.swift:247-252 | setting `fractionComplete` keeps status and closure and stores the value clamped to [0, 1] |
| Animation.DragFraction | Sources/SplitflapView/SplitflapView.swift:244-245 | the drag fraction is in [0, 1], is 1 exactly when the translation is at least the height, and below 1 is translation / height |
| Animation.SplitStages | Sources/SplitflapView/SplitflapView.swift:249-250 | the two stages add up (halved) to the total; for a total in [0, 1] both are in [0, 1]; stage 2 moves only once stage 1 is 1; stage 1 is 1 exactly when the total reaches 0.5 |
| Splitflap.StartSlot | Sources/SplitflapView/SplitflapView.swift:259-270 | `slot?.startAnimation()`: an empty slot stays empty. The animator in a full slot is no longer armed, keeps its fraction and closure, and is unchanged unless it is now running. A finished animator stays finished, so its completion closure never runs twice |
| Splitflap.SetSlotFraction | Sources/SplitflapView/SplitflapView.swift:247-252 | `slot?.fractionComplete = f`: an empty slot stays empty. The animator in a full slot keeps its status and closure, and its fraction lies in [0, 1], equal to `f` whenever `f` is in range |
| Splitflap.SplitflapView.constructor | Sources/SplitflapView/SplitflapView.swift:107-121 | a new view is idle at index 0. Both static tiles show the first token, or the segment views' initial '0' when the sequence is empty |
| Splitflap.SplitflapView.SetTokens | Sources/SplitflapView/SplitflapView.swift:37-42 | as written: the setter succeeds only when the clamped index is readable, and then it keeps the index and redraws both tiles from the new sequence |
| Splitflap.SplitflapView.SetTokensClamped | Sources/SplitflapView/SplitflapView.swift:37-42 | with the intended clamp, every non-empty sequence is accepted, the index is clamped into range and both tiles are redrawn |
| Splitflap.SplitflapView.UpdateIndex | Sources/SplitflapView/SplitflapView.swift:155-165 | the new index is `WrapIndex` of the old one; nothing else changes |
| Splitflap.SplitflapView.RedrawToken | Sources/SplitflapView/SplitflapView.swift:187-191 | both static tiles show `tokens[currentIndex]`; it traps unless the index is in range |
| Splitflap.SplitflapView.NextToken | Sources/SplitflapView/SplitflapView.swift:167-175 | refused (false, nothing changed) exactly while a primary exists; otherwise true, index +1 with wrap-around, and the flip armed with the `LeadingStartedFirst`, label and sync invariants |
| Splitflap.SplitflapView.PreviousToken | Sources/SplitflapView/SplitflapView.swift:177-185 | the mirror of NextToken with index -1 and a backward flip |
| Splitflap.SplitflapView.HandleTopTapGesture | Sources/SplitflapView/SplitflapView.swift:195-200 | no effect while a primary exists; otherwise the effect of `nextToken()` with the default duration 0.4 |
| Splitflap.SplitflapView.HandleBottomTapGesture | Sources/SplitflapView/SplitflapView.swift:202-207 | no effect while a primary exists; otherwise the effect of `previousToken()` with the default duration |
| Splitflap.SplitflapView.DidBeginPan | Sources/SplitflapView/SplitflapView.swift:222-239 | no effect while the primary runs or when the velocity is 0. A negative velocity sets `.previous` and moves -1; a positive one sets `.next` and moves +1. An interactive flip is armed only if no primary existed. Otherwise the slots and labels are unchanged and the carried progress is the stale primary's fraction |
| Splitflap.SplitflapView.DidChangePan | Sources/SplitflapView/SplitflapView.swift:241-253 | no effect without a primary. Otherwise the primary gets drag fraction + carried progress; the top flap gets stage 1 for `.next` and stage 2 for `.previous`, and the bottom flap the other stage |
| Splitflap.SplitflapView.DidEndPan | Sources/SplitflapView/SplitflapView.swift:255-271 | always starts the primary and the flap that leads for `flipAnimationDirection`. It starts the other flap directly iff the primary fraction is at least 0.5. It keeps `LeadingStartedFirst` when that direction is the armed one |
| Splitflap.SplitflapView.AnimateToNextToken | Sources/SplitflapView/SplitflapView.swift:275-364 | refused while a primary exists. With no positive duration, both static tiles show the token and nothing is armed. Otherwise the overlay top gets the old top label, the overlay bottom and static top get the new token, and three animators are armed; the primary and top start unless interactive |
| Splitflap.SplitflapView.AnimateToPreviousToken | Sources/SplitflapView/SplitflapView.swift:366-455 | mirror: the overlay top and static bottom get the new token, the overlay bottom gets the old bottom label, and the bottom flap leads |
| Splitflap.SplitflapView.CompletePrimary | Sources/SplitflapView/SplitflapView.swift:326-341 | the closure (and its mirror at lines 417-432) writes the token into the bottom tile, or into both for `.previous`. It clears the overlays and all three slots, which reopens the gate. Under the flip's label invariant both tiles show the flip's token |
| Splitflap.SplitflapView.CompleteTopSegment | Sources/SplitflapView/SplitflapView.swift:347-349 | the top flap finishes; for a `.next` flip its closure starts whatever is in the bottom slot; `LeadingStartedFirst` is kept |
| Splitflap.SplitflapView.CompleteBottomSegment | Sources/SplitflapView/SplitflapView.swift:442-444 | the bottom flap finishes; for a `.previous` flip its closure starts whatever is in the top slot; `LeadingStartedFirst` is kept |
| Scenarios.RunToCompletion | Sources/SplitflapView/SplitflapView.swift:326-349 | a flip whose primary and leading flap run plays out leading, then trailing, then primary, and ends idle with both tiles on the flip's token |
| Scenarios.ProgrammaticFlipSettles | Sources/SplitflapView/SplitflapView.swift:167-185 | a programmatic flip with a positive duration from an idle view ends idle with both tiles on `currentToken`, index moved by one with wrap-around |
| Scenarios.TapsWalkTheRing | Sources/SplitflapView/SplitflapView.swift:44-46 | after n taps on one half of an idle view, each left to finish, `currentToken` is the token n places further round the ring (forwards for the top half, backwards for the bottom), modulo the count, and both tiles show it |
| Scenarios.FlipsFollowSteps | Sources/SplitflapView/SplitflapView.swift:155-185 | a run of `nextToken`/`previousToken` calls (+1/-1 steps), each left to finish, leaves the index at the ring walk of the steps, which is the start plus their sum modulo the count; both tiles show the token there |
| Scenarios.PanOnce | Sources/SplitflapView/SplitflapView.swift:222-271 | one begin/change/release on an idle view: leading flap at stage 1 and trailing at stage 2 of the drag; primary and leading running; trailing running iff the drag fraction is at least 0.5, armed otherwise |
| Scenarios.InteractiveFlipSettles | Sources/SplitflapView/SplitflapView.swift:222-271 | a pan released at any fraction and left to the clock ends idle with both tiles on `currentToken`, the token the index moved to |

## Findings

| source | as written | input that shows it | evidently intended | confidence | as-written member | corrected member |
|---|---|---|---|---|---|---|
| Sources/SplitflapView/SplitflapView.swift:39 | `currentIndex = min(currentIndex, tokens.count)` followed by `redrawToken()`, which reads `tokens[currentIndex]` | tokens "ABC" at index 2, then `tokens = "AB"`: the index stays 2 and `tokens[2]` traps | clamp to the last valid index, `min(currentIndex, tokens.count - 1)`, so that shrinking the sequence keeps the view readable | high (proved in the model; not executed) | TokenRing.ClampIndexAsWrittenOverruns | TokenRing.ClampIndex |

`Splitflap.SplitflapView.SetTokens` keeps the code as written; its `requires` is the condition
under which the Swift setter does not trap. `Splitflap.SplitflapView.SetTokensClamped` uses the
corrected clamp. Assigning an empty sequence traps under either clamp.

## Left out

- Perspective and rotation transforms, shadow alphas, easing curves, animation durations and
  timing: these are floating-point graphics in a foreign framework. Animators are only status,
  fraction and closure.
- The animation clock: completions are events that may fire in any order for a running
  animator still held in a slot. An animator whose slot was already cleared is not modelled
  further, so a late completion that would act on a newer flip's slot is not captured.
- UIKit animator semantics are assumed, not derived. `startAnimation()` on a running or
  finished animator does nothing. `fractionComplete` is stored clamped to [0, 1] and may be
  set in any state. An animator gets fraction 1 when it finishes.
- A running animator's fraction does not advance with the clock. In Swift the
  `fractionComplete` of a running primary grows over time, and `didEndPan` reads it (line
  256) when a pan ends during a running flip. The model keeps the fraction last set, so a
  release during a running flip is decided on that value.
- Splitflap.SplitflapView.DidChangePan: requires a positive view height. With a zero height
  the Swift division yields infinity or NaN, which `real` cannot represent.
- `handlePanGesture`: its switch maps `.began`, `.changed` and `.ended` one-to-one onto
  `DidBeginPan`, `DidChangePan` and `DidEndPan`. Every other recognizer state runs nothing,
  and the scenarios model such a state by calling nothing.
- Styling property observers, `layoutSubviews`, subview insertion and removal, and gesture
  recognizer wiring in `commonInit`: UI plumbing with no behaviour to state.
- `SplitflapSegmentView.swift` is represented only by a label field per tile;
  `InstantPanGestureRecognizer.swift` only by the pan events; `Package.swift` is not part of
  this model.
- A Swift `Character` (a grapheme cluster) is a Dafny `char`. Tokens are only copied and
  compared, so nothing the view does depends on the difference.
- `CGFloat` and `TimeInterval` are exact reals. Swift `Int` is 64-bit and traps on overflow;
  the model treats it as unbounded, since an index inside the sequence moved by one step
  cannot overflow.
