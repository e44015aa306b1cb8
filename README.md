# Katie site: the logic behind five interactive components

This project models the state logic of five components of a single-page
Valentine's site and proves properties of that model. The components are:

- **TreasureHunt**: a five-clue quiz. A free-text guess is lower-cased, trimmed and
  compared with the clue's answer. Timers then clear the "try again" hint, or
  reveal the answer and move to the next clue or finish the hunt.
- **ValentineProposal**: a yes button and a no button. "No" clicks are counted up
  to an explosion at five; an error modal follows the explosion. Two routes, a
  direct "yes" and closing the modal, end in the same polaroid reveal.
- **Carousel**: a wrap-around photo index. Slides cross-fade by writing opacity and
  z-index values on the slide elements in place. Indicator dots mark the current slide.
- **ImageGrid**: layout span classes per image. A hover tilt is drawn once per image
  from a fixed table of eight and reused. A single hovered id drives the overlay.
- **ReasonsSection**: a once-only sound schedule (at most three polaroid sounds,
  then a tape sound) and a once-only paper-slide sound. Each card swings through
  damped keyframes to a resting tilt that cycles -2, 0, 2 degrees.

Each component is one module, in one file. Pure rules (the answer check, span
classes, rotations, schedules) are functions, with lemmas about them.
Components whose handlers change state step by step are classes with those
fields. Handlers are methods with `modifies` clauses, and an invariant
`Valid()` is kept by every handler. Each timer, and each completion callback of
an animation library, is its own method ("…Fires", "…Ends"). That method runs
when the callback would. Random draws and DOM presence become parameters.

Files:
- `wrappers.dfy`: `Option`.
- `numbers.dfy`: `Abs`, shared by the tilt bounds of ImageGrid and ReasonsSection.
- `treasure_hunt.dfy`: string normalisation, answer check, progress dots, `Hunt` class.
- `valentine_proposal.dfy`: `Proposal` class, scales, message index.
- `carousel.dfy`: index arithmetic, slide styles, `Carousel` class. It also holds
  the autoplay tick as written, with the counterexample under Findings.
- `image_grid.dfy`: span classes, direction table, `Grid` class.
- `reasons_section.dfy`: schedule, rotations and keyframes, `Reasons` class.

## Model

| member | source | states |
|---|---|---|
| TreasureHunt.TrimStartShape | src/components/TreasureHunt.tsx:90 | the result is a suffix of the input, the dropped prefix is all white space, and the result does not start with white space |
| TreasureHunt.TrimEndShape | src/components/TreasureHunt.tsx:90 | the result is a prefix of the input, the dropped suffix is all white space, and the result does not end with white space |
| TreasureHunt.TrimTrimmed | src/components/TreasureHunt.tsx:90 | `trim()` leaves no white space at either end |
| TreasureHunt.TrimDecompose | src/components/TreasureHunt.tsx:90 | trimming keeps a contiguous middle slice and drops only white space on both sides |
| TreasureHunt.TrimOfPadded | src/components/TreasureHunt.tsx:90 | trimming white space + trimmed core + white space gives exactly the core |
| TreasureHunt.TrimIdempotent | src/components/TreasureHunt.tsx:90 | trimming twice is trimming once |
| TreasureHunt.LowerSpaceShape | src/components/TreasureHunt.tsx:90-91 | lower-casing turns no character into or out of white space, so it commutes with being blank or trimmed |
| TreasureHunt.RemoveSpacesShape | src/components/TreasureHunt.tsx:95 | `replace(/\s/g, '')` leaves no white space and never lengthens the string |
| TreasureHunt.RemoveSpacesOfSpaceFree | src/components/TreasureHunt.tsx:95 | removing white space from a string without any changes nothing |
| TreasureHunt.RemoveSpacesAppend | src/components/TreasureHunt.tsx:95 | removing white space distributes over concatenation |
| TreasureHunt.JoinWords | src/components/TreasureHunt.tsx:95 | two lower-case words joined by one space lose exactly that space |
| TreasureHunt.LowerRemoveSpaces | src/components/TreasureHunt.tsx:91-95 | lower-casing and removing white space commute |
| TreasureHunt.TrimLowerParts | src/components/TreasureHunt.tsx:90-91 | the trimmed, lower-cased guess is a lower-cased middle slice of the guess whose outer parts are white space |
| TreasureHunt.AcceptedGuessIsPaddedAnswer | src/components/TreasureHunt.tsx:90-95 | every accepted guess is white space, a trimmed core equal to the answer (or the answer without spaces) up to case, and white space |
| TreasureHunt.PaddedAnswerAccepted | src/components/TreasureHunt.tsx:90-95 | conversely every such padded core is accepted: case and outer white space are ignored, inner white space is not |
| TreasureHunt.BlankGuessRejected | src/components/TreasureHunt.tsx:90-95 | an empty or all-white-space guess is rejected for any answer that is not blank |
| TreasureHunt.AnswersAreNotBlank | src/components/TreasureHunt.tsx:36-72 | every stored answer has a non-space character, so a blank Enter submission is always wrong |
| TreasureHunt.SpaceFreeAnswerAccepted | src/components/TreasureHunt.tsx:94-95 | the answer with all white space removed is always accepted |
| TreasureHunt.PaddedCase | src/components/TreasureHunt.tsx:90-95 | " Salt Bread " is accepted for "salt bread" (also line 40) |
| TreasureHunt.JoinedCase | src/components/TreasureHunt.tsx:94-95 | "saltbread" is accepted for "salt bread" (also line 40) |
| TreasureHunt.DoubledSpaceCase | src/components/TreasureHunt.tsx:90-95 | "salt  bread" (two inner spaces) is rejected for "salt bread" (also line 40) |
| TreasureHunt.MatchaCase | src/components/TreasureHunt.tsx:90-95 | "matcha " is accepted for "matcha" (also line 47) |
| TreasureHunt.LawAndOrderCase | src/components/TreasureHunt.tsx:94-95 | "lawandorder" is accepted for "law and order" (also line 54) |
| TreasureHunt.ExactCase | src/components/TreasureHunt.tsx:94 | "lillies" is accepted for "lillies" (also line 61) |
| TreasureHunt.StoredCaseCase | src/components/TreasureHunt.tsx:91 | "manny pacquiao" is accepted for the stored "Manny Pacquiao" (also line 68) |
| TreasureHunt.SolutionsAccepted | src/components/TreasureHunt.tsx:36-72 | each of the five clues has an accepted guess |
| TreasureHunt.DotCounts | src/components/TreasureHunt.tsx:198-200 | the dots before the current clue are solved, exactly one dot is active, the remaining ones are pending |
| TreasureHunt.Hunt.constructor | src/components/TreasureHunt.tsx:21-29 | the hunt starts at clue 0, not complete, with an empty guess and no feedback shown |
| TreasureHunt.Hunt.Type | src/components/TreasureHunt.tsx:230-244 | typing changes the guess only while the input is rendered (not complete, no reveal) |
| TreasureHunt.Hunt.SubmitGuess | src/components/TreasureHunt.tsx:88-145 | a correct guess shows the reveal, hides the hint and sets the advance timer; a wrong one shows the hint and sets its timer; the clue and completion are unchanged either way |
| TreasureHunt.Hunt.KeyDown | src/components/TreasureHunt.tsx:230-245 | Enter submits, blank guesses included, exactly when the input is rendered; other keys change nothing; a submission runs the answer check: a correct guess shows the reveal and sets the advance timer, a wrong one shows the hint and adds one pending hint timer (also lines 148-151) |
| TreasureHunt.Hunt.ClickCheck | src/components/TreasureHunt.tsx:230-236 | the button submits exactly when it is rendered and the trimmed guess is non-empty; a submission runs the answer check: a correct guess shows the reveal and sets the advance timer, a wrong one shows the hint and adds one pending hint timer (also lines 264-268) |
| TreasureHunt.Hunt.AdvanceTimerFires | src/components/TreasureHunt.tsx:113-124 | the reveal is hidden and the guess cleared; the index moves on below the last clue, and on the last clue the hunt completes and onComplete is called once; the index stays within the clue list |
| TreasureHunt.Hunt.WrongTimerFires | src/components/TreasureHunt.tsx:143 | the wrong-answer timer hides the hint |
| TreasureHunt.MissCurrentClue | src/components/TreasureHunt.tsx:126-151 | a wrong guess leaves the clue, completion and the input as they were once its timer fires |
| TreasureHunt.SolveCurrentClue | src/components/TreasureHunt.tsx:97-124 | a correct guess moves to the next clue, or completes the hunt exactly when it was on the last clue (also lines 148-151) |
| TreasureHunt.PlayThrough | src/components/TreasureHunt.tsx:155-186 | a full hunt ends complete on the last clue with onComplete called once, and later Enter or clicks submit nothing (also lines 113-124) |
| ValentineProposal.ScalesGrow | src/components/ValentineProposal.tsx:217 | both button scales (100 + 15n and 100 + 10n percent) strictly increase with the count, the no button faster (also line 209) |
| ValentineProposal.MessageIndex | src/components/ValentineProposal.tsx:417-423 | a message is shown exactly when 0 < n < 5, and its index is inside the four-entry list (also lines 325-330) |
| ValentineProposal.MessagesDistinct | src/components/ValentineProposal.tsx:417-423 | the four counts that show a message each show a different one |
| ValentineProposal.Proposal.constructor | src/components/ValentineProposal.tsx:13-16 | no attempts, no modal, not exploding, not animating, buttons enabled |
| ValentineProposal.Proposal.ClickNo | src/components/ValentineProposal.tsx:112-221 | ignored while disabled or exploding; otherwise the count rises by exactly one, the explosion starts exactly at five, and below five the buttons take the grown scales; the count never exceeds five (also lines 450-458) |
| ValentineProposal.Proposal.ExplosionTimelineEnds | src/components/ValentineProposal.tsx:186-188 | the explosion timeline's last call shows the modal, so the modal implies the explosion |
| ValentineProposal.Proposal.ClickYes | src/components/ValentineProposal.tsx:33-56 | a no-op while disabled, animating, the modal is shown or exploding; otherwise sets animating, disables both buttons and starts the accept timeline (also line 441) |
| ValentineProposal.Proposal.ClickModalClose | src/components/ValentineProposal.tsx:225-234 | a click on the modal's button starts its close tween only while the modal is shown (also lines 538-539) |
| ValentineProposal.Proposal.CloseTweenEnds | src/components/ValentineProposal.tsx:235-237 | the close tween hides the modal and sets the 50 ms timer |
| ValentineProposal.Proposal.CloseTimerFires | src/components/ValentineProposal.tsx:237-251 | the timer sets animating and starts the accept timeline |
| ValentineProposal.Proposal.AcceptTimelineEnds | src/components/ValentineProposal.tsx:247-251 | an accept timeline ends in the accepted state and calls onAccept once more (also lines 52-56) |
| ValentineProposal.FourNoClicks | src/components/ValentineProposal.tsx:417-423 | four "no" clicks show the fourth message, scale the buttons to 160 and 140 percent, and explode nothing (also lines 119-124, 209, 217) |
| ValentineProposal.YesRoute | src/components/ValentineProposal.tsx:33-56 | the yes route ends accepted, unexploded, with onAccept called once; repeated clicks are ignored |
| ValentineProposal.Explode | src/components/ValentineProposal.tsx:119-124 | the fifth "no" click explodes the button and starts the explosion timeline before the modal shows (also lines 186-188) |
| ValentineProposal.ModalRoute | src/components/ValentineProposal.tsx:225-307 | the fifth "no" explodes, later clicks on either button are ignored, and closing the modal ends accepted with onAccept called once (also lines 122-124, 186-188) |
| Carousel.Normalize | src/components/Carousel.tsx:61-62 | `(target + len) % len` lies in [0, len); -1 maps to len - 1, len to 0, in-range targets to themselves (also line 28) |
| Carousel.NextThenPrev | src/components/Carousel.tsx:61-62 | with two or more slides, next then previous (and previous then next) returns to the start |
| Carousel.Begin | src/components/Carousel.tsx:37-44 | starting a fade raises both slides to z-index 1, starts the incoming slide at opacity 0, and writes no other slide |
| Carousel.Finish | src/components/Carousel.tsx:41-54 | ending a fade leaves the outgoing slide at opacity 0, z-index 0, the incoming one at opacity 1, and no other slide changed |
| Carousel.SettleAppend | src/components/Carousel.tsx:41-54 | ending the fades in flight and then one more is ending them all in order |
| Carousel.SettleLocal | src/components/Carousel.tsx:33-55 | where a slide ends up depends only on its own starting style |
| Carousel.BeginKeepsOnlyShown | src/components/Carousel.tsx:27-59 | a fade from the current slide to another keeps "once the fades end, only the current slide is shown", now for the new slide |
| Carousel.FinishKeepsSettled | src/components/Carousel.tsx:47-54 | ending the oldest fade does not change where the styles settle |
| Carousel.OnlyShownVisible | src/components/Carousel.tsx:104-117 | when only the current slide is shown, the visible slides are exactly that one |
| Carousel.InitialOnlyShown | src/components/Carousel.tsx:104-117 | after initialisation only slide 0 is shown |
| Carousel.OneActiveIndicator | src/components/Carousel.tsx:182-187 | indicator i is active iff i is the current index, so exactly one is active |
| Carousel.Carousel.constructor | src/components/Carousel.tsx:104-117 | a rendered carousel starts at index 0 with slide 0 shown and every other slide hidden at z-index 0 (also lines 21-25, 130) |
| Carousel.Carousel.InitStyles | src/components/Carousel.tsx:104-117 | the initialising loop writes opacity 1 and z-index 1 on slide 0, and opacity 0 and z-index 0 on every other slide |
| Carousel.Carousel.StartFade | src/components/Carousel.tsx:37-44 | the in-place writes of a fade's start are exactly `Begin` |
| Carousel.Carousel.GoToSlide | src/components/Carousel.tsx:27-59 | the index becomes the normalised target in both the ref and the state; going to the current slide writes nothing; otherwise exactly one fade starts, and the settled view shows only the new slide |
| Carousel.Carousel.NextSlide | src/components/Carousel.tsx:61 | moves to `(cur + 1) % len`; a move to another slide writes only the new and old slides (`Begin`) and queues one fade, and a move to the same slide writes nothing |
| Carousel.Carousel.PrevSlide | src/components/Carousel.tsx:62 | moves to `(cur - 1 + len) % len`; a move to another slide writes only the new and old slides (`Begin`) and queues one fade, and a move to the same slide writes nothing |
| Carousel.Carousel.AutoplayTick | src/components/Carousel.tsx:67-97 | the tick with the same-slide guard: moves to `(cur + 1) % len`, writing only the new and old slides (`Begin`) and queueing one fade; with one slide it leaves the styles and the queue unchanged |
| Carousel.Carousel.FadeEnds | src/components/Carousel.tsx:47-54 | the oldest fade ends: incoming slide at opacity 1, outgoing at opacity 0 and z-index 0; the index is unchanged |
| Carousel.Carousel.SettledShowsCurrent | src/components/Carousel.tsx:27-59 | once no fade is in flight, exactly one slide is visible and it is the current index |
| Carousel.TickAsWritten | src/components/Carousel.tsx:67-97 | the unguarded tick always starts a fade from the current slide to `(cur + 1) % len` |
| Carousel.TickAsWrittenHidesSingleSlide | src/components/Carousel.tsx:67-97 | with one slide the unguarded tick leaves no slide visible once its fade ends |
| Carousel.SingleSlideTick | src/components/Carousel.tsx:67-97 | with the guard, a tick leaves the one slide's style as it was, and that slide stays visible (also line 31) |
| Carousel.ThreePhotos | src/components/Carousel.tsx:61-62 | next, next, previous and a click on the current indicator end at slide 1, the only visible slide (also lines 31, 185) |
| ImageGrid.SpanClassesMatchFootprint | src/components/ImageGrid.tsx:24-35 | the classes of "wide", "tall", "large" and anything else ask for exactly the columns and rows the span covers |
| ImageGrid.NoClassesIffSingleCell | src/components/ImageGrid.tsx:24-35 | the class string is empty exactly for spans covering one cell (normal or missing) |
| ImageGrid.Pick | src/components/ImageGrid.tsx:44-54 | the drawn tilt is one of the eight, within 15 px each way and 3 degrees, and never zero |
| ImageGrid.Overlays | src/components/ImageGrid.tsx:133-135 | an overlay is opaque iff its id is the hovered id, so at most one is |
| ImageGrid.Grid.constructor | src/components/ImageGrid.tsx:20-22 | nothing hovered, no tilt remembered, no tween started |
| ImageGrid.Grid.MouseEnter | src/components/ImageGrid.tsx:37-68 | the id becomes hovered; for a missing element nothing else changes; a tilt is drawn only for an id without one, and a remembered tilt never changes; the box tweens to that tilt |
| ImageGrid.Grid.MouseLeave | src/components/ImageGrid.tsx:81-95 | nothing is hovered, and a mounted box tweens back to rest whatever its tilt |
| ImageGrid.Grid.RememberedBounded | src/components/ImageGrid.tsx:43-57 | every remembered tilt is within the table's bounds |
| ImageGrid.HoverTwice | src/components/ImageGrid.tsx:43-57 | a second hover with any other draw reuses the first tilt, and leaving returns to rest (also lines 86-95) |
| ImageGrid.HoverMissing | src/components/ImageGrid.tsx:38-40 | hovering an image whose element is missing marks it hovered but draws no tilt and starts no tween |
| ImageGrid.HoverAcross | src/components/ImageGrid.tsx:133-135 | moving from one image to another leaves only the second overlay shown (also lines 38, 82) |
| ReasonsSection.SoundCount | src/components/sections/ReasonsSection.tsx:26 | the polaroid count is `min(cardCount, 3)` |
| ReasonsSection.ScheduleShape | src/components/sections/ReasonsSection.tsx:26-31 | the schedule holds `min(cardCount, 3)` polaroid timers and one tape timer, the tape last, with strictly increasing delays |
| ReasonsSection.TapeGap | src/components/sections/ReasonsSection.tsx:28-31 | the tape plays 350 ms after the last polaroid sound, or at 300 ms with no cards |
| ReasonsSection.ScheduleIsSchedule | src/components/sections/ReasonsSection.tsx:26-31 | every schedule is determined by its own length: card counts past three give the same schedule |
| ReasonsSection.FinalRotation | src/components/sections/ReasonsSection.tsx:47 | the resting tilt is -2, 0 or 2 degrees |
| ReasonsSection.FinalRotationPeriodic | src/components/sections/ReasonsSection.tsx:47 | the tilt repeats every three cards and neighbouring cards differ |
| ReasonsSection.Swing | src/components/sections/ReasonsSection.tsx:72-101 | five keyframes ending at the resting tilt; the first four alternate above and below it with strictly shrinking offsets |
| ReasonsSection.CardTimelines | src/components/sections/ReasonsSection.tsx:46-101 | no timelines without cards or section; otherwise one per card, 150 ms apart, each resting at its card's tilt (also lines 35-36) |
| ReasonsSection.Reasons.constructor | src/components/sections/ReasonsSection.tsx:34-63 | one trigger per timeline; nothing played or scheduled yet (also lines 16-17) |
| ReasonsSection.Reasons.PlaySoundsForCards | src/components/sections/ReasonsSection.tsx:21-32 | the first call schedules exactly the polaroid timers and the tape timer; later calls change nothing |
| ReasonsSection.Reasons.OnEnter | src/components/sections/ReasonsSection.tsx:54-60 | the paper-slide sound plays once in total, and the card sounds are scheduled once |
| ReasonsSection.Reasons.SectionEnters | src/components/sections/ReasonsSection.tsx:49-60 | every trigger's callback runs; with no triggers nothing changes; otherwise one paper-slide sound in total and the single schedule |
| ReasonsSection.Reasons.TimerFires | src/components/sections/ReasonsSection.tsx:31 | the earliest pending timer plays its sound (also line 28) |
| ReasonsSection.SixCards | src/components/sections/ReasonsSection.tsx:21-60 | with six cards, repeated entries play one paper-slide sound, then three polaroid sounds and the tape sound in that order |
| ReasonsSection.NoSection | src/components/sections/ReasonsSection.tsx:35-36 | without the section element, entering plays and schedules nothing |

## Left out

- Sound playback (`src/hooks/useSounds.ts`) is not part of this model. Played sounds are counted, or logged as `Sound` values; no audio is produced.
- Animation tweens, easings, durations, shakes, box shadows and entrance animations
  are out. Only the value each tween ends at is kept (opacity, z-index, scale,
  offsets, rotation). The completion callbacks that change modelled state are
  separate methods.
- Wall-clock time is out. Timers and tween completions are events that the caller
  orders. The model assumes that the Carousel's fades, which share one duration,
  end in the order they started.
- Carousel.Carousel: opacity is the value a slide's last finished fade ends at. Intermediate values during a fade are not modelled.
- Carousel.Carousel: the empty list is not modelled. The component renders nothing, but its autoplay interval still computes `% 0`. The class requires at least one slide.
- Carousel.Carousel.constructor: a slide's z-index before initialisation (`auto`) is modelled as 0.
- Carousel: the `autoPlay` and `interval` props and clearing the interval on unmount are out. A tick is a method call.
- TreasureHunt.LowerChar: only ASCII letters are lower-cased. Unicode case mapping is not modelled.
- TreasureHunt: the clue card's hint, reveal text and emoji, and the completion view's text, are display only and are out.
- TreasureHunt.Hunt.AdvanceTimerFires: `onComplete` is an optional prop, called only when passed. `completions` counts the calls a passed callback would receive; the site renders the component without one, so there no call happens.
- TreasureHunt.Hunt.SubmitGuess: the wrong-answer shake and the correct-answer pulse are out.
- ValentineProposal.Proposal: the handlers' early returns for missing DOM refs are not modelled. All refs are taken as mounted.
- ValentineProposal.Proposal: the play-sound calls, the explosion particles and the celebration confetti are out.
- ValentineProposal.Proposal.AcceptTimelineEnds: `onAccept` is an optional prop, called only when passed. `acceptCalls` counts the calls a passed callback would receive; the site renders the component without one, so there no call happens.
- ValentineProposal: scales are integer percents (100 + 15n, 100 + 10n), not reals.
- ImageGrid.Grid.MouseEnter: `Math.random` becomes the parameter `choice`, standing for `Math.floor(Math.random() * 8)`.
- ImageGrid.Grid.MouseEnter: image ids are taken not to be names of `Object.prototype` members (`toString`, `constructor`, `__proto__`). The source keeps tilts and refs in plain `{}` objects, where such an id would find an inherited value on the first hover, draw no tilt and tween to undefined offsets; the model's maps draw a tilt. The site's ids are `'1'` to `'9'`.
- ImageGrid.Grid: the inner image is taken to be present, so its scale (110 or 100 percent) is part of `Transform`.
- ImageGrid.Grid: element refs are a fixed set of mounted ids given at construction. Refs that change while the grid is mounted are out.
- ImageGrid: the grid's `className` prop and its image sources and alt text are out.
- ReasonsSection.Reasons: ScrollTrigger firing is modelled as `SectionEnters`, which runs each card's trigger callback once. Scroll positions and timeline delays in seconds are out.
- ReasonsSection.Reasons.constructor: the effect's cleanup and its re-run when `reasons` changes are out.
- React rendering is out. Each handler is one atomic step on the component's current state; re-renders and stale closures are not modelled.

## Findings

| source | as written | input that shows it | evidently intended | confidence | as-written member | corrected member |
|---|---|---|---|---|---|---|
| src/components/Carousel.tsx:67-97 | the autoplay tick starts a cross-fade from the current slide to `(cur + 1) % len` without the `newIndex === oldIndex` guard that `goToSlide` has (line 31) | a carousel with one item: the tick fades slide 0 in and out at once; the later fade-out wins, and slide 0 ends at opacity 0 and z-index 0, so nothing is visible | a tick on a one-slide carousel changes nothing, as `goToSlide(cur + 1)` would | not executed | Carousel.TickAsWrittenHidesSingleSlide | Carousel.Carousel.AutoplayTick |
