/** The "will you be my Valentine" widget: a yes button, a no button whose
    clicks are counted up to an explosion, an error modal shown after the
    explosion, and the polaroid reveal that both routes end in. */
module ValentineProposal {

  import opened Wrappers

  /** After this many "no" clicks the no button explodes. */
  const MaxNoAttempts: nat := 5

  /** The teasing line shown under the question, one per early "no". */
  const PlayfulMessages: seq<string> := [
    "hmm... try again? \U{1F914}",
    "u sure about that? \U{1F97A}",
    "wait...really...? \U{1F630}",
    "alr now im mad \U{1F624}"
  ]

  /** The no button's scale, in percent, after `n` regular "no" clicks. */
  function NoScale(n: nat): int {
    100 + 15 * n
  }

  /** The yes button's scale, in percent, after `n` regular "no" clicks. */
  function YesScale(n: nat): int {
    100 + 10 * n
  }

  /** The scale, in percent, that the explosion leaves each button at. */
  const ExplodedNoScale: int := 0
  const ExplodedYesScale: int := 150

  /** Both buttons grow strictly with every regular "no" click, the no button
      faster than the yes button. */
  lemma ScalesGrow(n: nat, m: nat)
    requires n < m
    ensures NoScale(n) < NoScale(m) && YesScale(n) < YesScale(m)
    ensures NoScale(m) - NoScale(n) > YesScale(m) - YesScale(n)
  {
  }

  /** Which playful message is shown after `n` "no" clicks: none before the
      first click and none once the count reaches the maximum. */
  function MessageIndex(n: nat): (r: Option<nat>)
    ensures r.Some? <==> 0 < n < MaxNoAttempts
    ensures r.Some? ==> r.value < |PlayfulMessages|
  {
    if 0 < n < MaxNoAttempts then
      Some(if n - 1 < |PlayfulMessages| - 1 then n - 1 else |PlayfulMessages| - 1)
    else
      None
  }

  /** Each of the four counts that show a message shows a different one. */
  lemma MessagesDistinct(n: nat, m: nat)
    requires 0 < n < m < MaxNoAttempts
    ensures MessageIndex(n) != MessageIndex(m)
  {
  }

  class Proposal {
    var noAttempts: nat
    var showErrorModal: bool
    var isExploding: bool
    var isAnimating: bool
    /** The `disabled` property of the two DOM buttons, set in place. */
    var yesDisabled: bool
    var noDisabled: bool
    /** The scale, in percent, the last tween on each button moves it to. */
    var noScale: int
    var yesScale: int
    /** The explosion timeline has not yet reached the call that shows the modal. */
    var explosionPending: bool
    /** Close tweens of the modal still running (each was started by a click). */
    var closeTweens: nat
    /** 50 ms timers set by finished close tweens that have not fired yet. */
    var closeTimers: nat
    /** Accept timelines (question out, polaroid in) still running. */
    var acceptTimelines: nat
    /** The polaroid reveal has finished at least once. */
    var accepted: bool
    /** How many accept timelines have finished, i.e. how often onAccept was called. */
    var acceptCalls: nat

    ghost predicate Valid()
      reads this
    {
      && noAttempts <= MaxNoAttempts
      && (isExploding <==> noAttempts == MaxNoAttempts)
      && (showErrorModal ==> isExploding)
      && (noAttempts < MaxNoAttempts ==> noScale == NoScale(noAttempts) && yesScale == YesScale(noAttempts))
      && (isExploding ==> noScale == ExplodedNoScale && yesScale == ExplodedYesScale)
      // Before the explosion, only the yes route can be under way.
      && (!isExploding ==>
            && yesDisabled == isAnimating && noDisabled == isAnimating
            && !explosionPending && closeTweens == 0 && closeTimers == 0
            && acceptTimelines + acceptCalls <= 1)
      // After it, only the modal route: the buttons were never disabled.
      && (isExploding ==> !yesDisabled && !noDisabled)
      && (explosionPending ==> !showErrorModal && closeTweens == 0 && closeTimers == 0 && !isAnimating)
      && (acceptTimelines > 0 ==> isAnimating)
      && (accepted <==> acceptCalls > 0)
      && (accepted ==> isAnimating)
    }

    /** The state after the route that ends in the polaroid reveal. */
    predicate Accepted()
      reads this
    {
      accepted && isAnimating
    }

    constructor ()
      ensures Valid()
      ensures noAttempts == 0 && !showErrorModal && !isExploding && !isAnimating
      ensures !yesDisabled && !noDisabled && !accepted && acceptCalls == 0
    {
      noAttempts := 0;
      showErrorModal, isExploding, isAnimating := false, false, false;
      yesDisabled, noDisabled := false, false;
      noScale, yesScale := NoScale(0), YesScale(0);
      explosionPending := false;
      closeTweens, closeTimers, acceptTimelines := 0, 0, 0;
      accepted, acceptCalls := false, 0;
    }

    /** A click on the no button: ignored while the button is disabled or once
        the explosion has started; otherwise the count goes up by one, and at
        the maximum the button explodes instead of growing. */
    method ClickNo()
      requires Valid()
      modifies this`noAttempts, this`isExploding, this`explosionPending, this`noScale, this`yesScale
      ensures Valid()
      ensures old(noDisabled || isExploding) ==>
        noAttempts == old(noAttempts) && isExploding == old(isExploding) && explosionPending == old(explosionPending)
      ensures !old(noDisabled || isExploding) ==> noAttempts == old(noAttempts) + 1
      ensures !old(noDisabled || isExploding) ==> (isExploding <==> noAttempts == MaxNoAttempts)
      ensures !old(noDisabled || isExploding) && isExploding ==> explosionPending
      ensures !isExploding ==> noScale == NoScale(noAttempts) && yesScale == YesScale(noAttempts)
    {
      if noDisabled || isExploding {
        return;
      }
      var newAttempts := noAttempts + 1;
      noAttempts := newAttempts;
      if newAttempts >= MaxNoAttempts {
        isExploding := true;
        noScale, yesScale := ExplodedNoScale, ExplodedYesScale;
        explosionPending := true;
        return;
      }
      noScale := NoScale(newAttempts);
      yesScale := YesScale(newAttempts);
    }

    /** The explosion timeline reaches its last call and shows the modal. */
    method ExplosionTimelineEnds()
      requires Valid() && explosionPending
      modifies this`showErrorModal, this`explosionPending
      ensures Valid()
      ensures showErrorModal && !explosionPending && isExploding
    {
      showErrorModal := true;
      explosionPending := false;
    }

    /** A click on the yes button: ignored while it is disabled, animating, the
        modal is shown or the explosion has started; otherwise both buttons are
        disabled and the accept timeline starts. */
    method ClickYes()
      requires Valid()
      modifies this`isAnimating, this`yesDisabled, this`noDisabled, this`acceptTimelines
      ensures Valid()
      ensures old(yesDisabled || isAnimating || showErrorModal || isExploding) ==>
        isAnimating == old(isAnimating) && acceptTimelines == old(acceptTimelines)
      ensures !old(yesDisabled || isAnimating || showErrorModal || isExploding) ==>
        isAnimating && yesDisabled && noDisabled && acceptTimelines == old(acceptTimelines) + 1
    {
      if yesDisabled || isAnimating || showErrorModal || isExploding {
        return;
      }
      isAnimating := true;
      yesDisabled := true;
      noDisabled := true;
      acceptTimelines := acceptTimelines + 1;
    }

    /** A click on the modal's button, which exists only while the modal is
        shown; it starts the modal's close tween. */
    method ClickModalClose()
      requires Valid()
      modifies this`closeTweens
      ensures Valid()
      ensures closeTweens == old(closeTweens) + (if old(showErrorModal) then 1 else 0)
    {
      if showErrorModal {
        closeTweens := closeTweens + 1;
      }
    }

    /** A close tween ends: the modal is hidden and a 50 ms timer is set. */
    method CloseTweenEnds()
      requires Valid() && closeTweens > 0
      modifies this`closeTweens, this`showErrorModal, this`closeTimers
      ensures Valid()
      ensures !showErrorModal && closeTweens == old(closeTweens) - 1 && closeTimers == old(closeTimers) + 1
    {
      closeTweens := closeTweens - 1;
      showErrorModal := false;
      closeTimers := closeTimers + 1;
    }

    /** The 50 ms timer fires: animating starts and the accept timeline runs. */
    method CloseTimerFires()
      requires Valid() && closeTimers > 0
      modifies this`closeTimers, this`isAnimating, this`acceptTimelines
      ensures Valid()
      ensures isAnimating && closeTimers == old(closeTimers) - 1 && acceptTimelines == old(acceptTimelines) + 1
    {
      closeTimers := closeTimers - 1;
      isAnimating := true;
      acceptTimelines := acceptTimelines + 1;
    }

    /** An accept timeline ends: the polaroid is shown and onAccept is called. */
    method AcceptTimelineEnds()
      requires Valid() && acceptTimelines > 0
      modifies this`acceptTimelines, this`accepted, this`acceptCalls
      ensures Valid()
      ensures Accepted()
      ensures acceptTimelines == old(acceptTimelines) - 1 && acceptCalls == old(acceptCalls) + 1
    {
      acceptTimelines := acceptTimelines - 1;
      accepted := true;
      acceptCalls := acceptCalls + 1;
    }
  }

  /** Four "no" clicks: each grows the buttons, the fourth message is shown,
      and nothing explodes. */
  method FourNoClicks() returns (exploding: bool, modal: bool, message: Option<nat>, noScale: int, yesScale: int)
    ensures !exploding && !modal && message == Some(3) && noScale == 160 && yesScale == 140
  {
    var p := new Proposal();
    p.ClickNo();
    p.ClickNo();
    p.ClickNo();
    p.ClickNo();
    exploding, modal, message := p.isExploding, p.showErrorModal, MessageIndex(p.noAttempts);
    noScale, yesScale := p.noScale, p.yesScale;
  }

  /** The yes route: one click and the accept timeline end in the reveal,
      with onAccept called once and nothing exploded. */
  method YesRoute() returns (accepted: bool, exploding: bool, calls: nat)
    ensures accepted && !exploding && calls == 1
  {
    var p := new Proposal();
    p.ClickNo();
    p.ClickYes();
    p.ClickYes();
    p.ClickNo();
    p.AcceptTimelineEnds();
    accepted, exploding, calls := p.Accepted(), p.isExploding, p.acceptCalls;
  }

  /** Five "no" clicks: the fifth explodes the no button and starts the
      explosion timeline, with the modal not shown yet. */
  method Explode() returns (p: Proposal)
    ensures fresh(p) && p.Valid()
    ensures p.isExploding && p.explosionPending && !p.showErrorModal && !p.isAnimating
    ensures p.noAttempts == MaxNoAttempts && p.acceptCalls == 0
  {
    p := new Proposal();
    p.ClickNo();
    p.ClickNo();
    p.ClickNo();
    p.ClickNo();
    assert p.noAttempts == 4 && !p.noDisabled && !p.isExploding;
    p.ClickNo();
  }

  /** The modal route: the fifth "no" explodes, a sixth is ignored, the yes
      button does nothing any more, and closing the modal ends in the same
      reveal as the yes route. */
  method ModalRoute() returns (accepted: bool, exploding: bool, attempts: nat, calls: nat)
    ensures accepted && exploding && attempts == MaxNoAttempts && calls == 1
  {
    var p := Explode();
    p.ClickNo();
    p.ClickYes();
    assert !p.isAnimating && p.acceptCalls == 0;
    p.ExplosionTimelineEnds();
    p.ClickYes();
    assert !p.isAnimating && p.showErrorModal && p.closeTweens == 0;
    p.ClickModalClose();
    p.CloseTweenEnds();
    p.CloseTimerFires();
    p.AcceptTimelineEnds();
    accepted, exploding, attempts, calls := p.Accepted(), p.isExploding, p.noAttempts, p.acceptCalls;
  }
}
