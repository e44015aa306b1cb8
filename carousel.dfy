/** The photo carousel: a current index that wraps around, and per-slide
    opacity and z-index values written in place when one slide cross-fades
    into another. Fades run for the same fixed time, so the fades in flight
    finish in the order they started; `pending` lists them in that order. */
module Carousel {

  /** The two style values the carousel writes on a slide. Opacity is the
      value a fade ends at (0 hidden, 1 shown). */
  datatype SlideStyle = SlideStyle(opacity: int, zIndex: int)

  /** A cross-fade in flight from slide `outgoing` to slide `incoming`. */
  datatype Fade = Fade(incoming: nat, outgoing: nat)

  /** Both slides of every fade lie inside the list. */
  predicate InRange(p: seq<Fade>, n: nat) {
    forall i :: 0 <= i < |p| ==> p[i].incoming < n && p[i].outgoing < n
  }

  // ---------------------------------------------------------------------------
  // Index arithmetic

  /** goToSlide's `(target + len) % len`. The callers pass a target in
      [-1, len], so the JavaScript remainder is taken of a non-negative number
      and agrees with Dafny's. */
  function Normalize(target: int, len: nat): (r: nat)
    requires len > 0 && target >= -(len as int)
    ensures r < len
    ensures target < 0 ==> r == target + len
    ensures 0 <= target < len ==> r == target
    ensures len <= target < 2 * len ==> r == target - len
  {
    ModOfSmall(target + len, len);
    (target + len) % len
  }

  /** The remainder of a number below three times the divisor. */
  lemma ModOfSmall(x: int, len: int)
    requires len > 0 && 0 <= x
    ensures x < len ==> x % len == x
    ensures len <= x < 2 * len ==> x % len == x - len
    ensures 2 * len <= x < 3 * len ==> x % len == x - 2 * len
  {
    if 3 * len <= x {
    } else if x < len {
      assert x == 0 * len + x;
    } else if x < 2 * len {
      assert x == 1 * len + (x - len);
    } else {
      assert x == 2 * len + (x - 2 * len);
    }
  }

  /** With at least two slides, next then previous returns to the start, and
      so does previous then next. */
  lemma NextThenPrev(cur: nat, len: nat)
    requires cur < len && len >= 2
    ensures Normalize(Normalize(cur + 1, len) - 1, len) == cur
    ensures Normalize(Normalize(cur - 1, len) + 1, len) == cur
  {
    if cur + 1 < len {
      assert Normalize(cur + 1, len) == cur + 1;
    } else {
      assert Normalize(cur + 1, len) == 0;
    }
    if cur > 0 {
      assert Normalize(cur - 1, len) == cur - 1;
    } else {
      assert Normalize(cur - 1, len) == len - 1;
    }
  }

  // ---------------------------------------------------------------------------
  // Slide styles

  /** What the initialising effect leaves: slide 0 shown on top, every other
      slide hidden below. */
  function InitialStyles(n: nat): seq<SlideStyle> {
    seq(n, i requires 0 <= i < n => if i == 0 then SlideStyle(1, 1) else SlideStyle(0, 0))
  }

  /** The writes made when a fade starts: both slides raised to z-index 1, and
      the incoming slide set to opacity 0 by the fade-in's starting value. */
  function Begin(s: seq<SlideStyle>, f: Fade): (r: seq<SlideStyle>)
    requires f.incoming < |s| && f.outgoing < |s|
    ensures |r| == |s|
    ensures forall j :: 0 <= j < |s| && j != f.incoming && j != f.outgoing ==> r[j] == s[j]
    ensures r[f.incoming].opacity == 0 && r[f.incoming].zIndex == 1 && r[f.outgoing].zIndex == 1
  {
    var t := s[f.incoming := SlideStyle(0, 1)];
    t[f.outgoing := t[f.outgoing].(zIndex := 1)]
  }

  /** The writes made when a fade ends: the incoming slide reaches opacity 1,
      then the outgoing slide reaches opacity 0 and is lowered to z-index 0.
      When both are one slide, the fade-out, started later, wins. */
  function Finish(s: seq<SlideStyle>, f: Fade): (r: seq<SlideStyle>)
    requires f.incoming < |s| && f.outgoing < |s|
    ensures |r| == |s|
    ensures forall j :: 0 <= j < |s| && j != f.incoming && j != f.outgoing ==> r[j] == s[j]
    ensures r[f.outgoing] == SlideStyle(0, 0)
    ensures f.incoming != f.outgoing ==> r[f.incoming] == s[f.incoming].(opacity := 1)
  {
    var t := s[f.incoming := s[f.incoming].(opacity := 1)];
    t[f.outgoing := SlideStyle(0, 0)]
  }

  /** The styles once every fade in flight has ended, in order. */
  function Settle(s: seq<SlideStyle>, p: seq<Fade>): (r: seq<SlideStyle>)
    requires InRange(p, |s|)
    ensures |r| == |s|
    decreases p
  {
    if p == [] then s else Settle(Finish(s, p[0]), p[1..])
  }

  /** Slide `cur` is the only one shown, and every other slide is hidden at
      z-index 0. */
  predicate OnlyShown(s: seq<SlideStyle>, cur: nat) {
    forall j :: 0 <= j < |s| ==>
      s[j].opacity == (if j == cur then 1 else 0) && (j != cur ==> s[j].zIndex == 0)
  }

  /** The slides that are visible. */
  function Visible(s: seq<SlideStyle>): set<nat> {
    set j: nat | j < |s| && s[j].opacity != 0
  }

  /** OnlyShown means exactly one slide is visible, and it is `cur`. */
  lemma OnlyShownVisible(s: seq<SlideStyle>, cur: nat)
    requires cur < |s| && OnlyShown(s, cur)
    ensures Visible(s) == {cur}
  {
  }

  lemma InitialOnlyShown(n: nat)
    requires n > 0
    ensures OnlyShown(InitialStyles(n), 0)
  {
  }

  /** Ending one more fade after the ones in flight. */
  lemma {:induction false} SettleAppend(s: seq<SlideStyle>, p: seq<Fade>, f: Fade)
    requires InRange(p, |s|) && f.incoming < |s| && f.outgoing < |s|
    ensures InRange(p + [f], |s|)
    ensures Settle(s, p + [f]) == Finish(Settle(s, p), f)
    decreases p
  {
    if p != [] {
      assert (p + [f])[0] == p[0];
      assert (p + [f])[1..] == p[1..] + [f];
      SettleAppend(Finish(s, p[0]), p[1..], f);
    }
  }

  /** What a slide ends at depends only on its own starting style. */
  lemma {:induction false} SettleLocal(s: seq<SlideStyle>, t: seq<SlideStyle>, p: seq<Fade>, j: nat)
    requires |s| == |t| && j < |s| && s[j] == t[j] && InRange(p, |s|)
    ensures Settle(s, p)[j] == Settle(t, p)[j]
    decreases p
  {
    if p != [] {
      SettleLocal(Finish(s, p[0]), Finish(t, p[0]), p[1..], j);
    }
  }

  /** Starting a fade from the current slide to another keeps the settled
      view right: once all fades end, the new slide is the only one shown. */
  lemma BeginKeepsOnlyShown(s: seq<SlideStyle>, p: seq<Fade>, cur: nat, next: nat)
    requires InRange(p, |s|) && cur < |s| && next < |s| && next != cur
    requires OnlyShown(Settle(s, p), cur)
    ensures InRange(p + [Fade(next, cur)], |s|)
    ensures OnlyShown(Settle(Begin(s, Fade(next, cur)), p + [Fade(next, cur)]), next)
  {
    var f := Fade(next, cur);
    var b := Begin(s, f);
    SettleAppend(b, p, f);
    var r := Settle(b, p + [f]);
    forall j | 0 <= j < |s|
      ensures r[j].opacity == (if j == next then 1 else 0) && (j != next ==> r[j].zIndex == 0)
    {
      if j != next && j != cur {
        SettleLocal(b, s, p, j);
      }
    }
  }

  /** Ending the oldest fade in flight leaves the settled view as it was.
      This is one unfolding step of Settle, stated for the frame of FadeEnds. */
  lemma FinishKeepsSettled(s: seq<SlideStyle>, p: seq<Fade>)
    requires p != [] && InRange(p, |s|)
    ensures InRange(p[1..], |s|)
    ensures Settle(Finish(s, p[0]), p[1..]) == Settle(s, p)
  {
  }

  // ---------------------------------------------------------------------------
  // Indicators

  /** Indicator `idx` is drawn active. */
  predicate IndicatorActive(idx: nat, current: nat) {
    idx == current
  }

  /** The indicators drawn active among the first `n`. */
  function ActiveIndicators(n: nat, current: nat): set<nat> {
    set idx: nat | idx < n && IndicatorActive(idx, current)
  }

  /** Exactly one indicator is active, the current slide's. */
  lemma OneActiveIndicator(n: nat, current: nat)
    requires current < n
    ensures ActiveIndicators(n, current) == {current}
  {
  }

  // ---------------------------------------------------------------------------
  // The component

  /** The component renders nothing for an empty list. */
  predicate Renders(n: nat) {
    n > 0
  }

  class Carousel {
    /** The slide elements' style values. */
    var styles: array<SlideStyle>
    /** The ref that the handlers read and write. */
    var currentIndexRef: nat
    /** The React state that the indicators read. */
    var currentIndex: nat
    /** Fades in flight, oldest first. */
    var pending: seq<Fade>

    ghost predicate Valid()
      reads this, styles
    {
      && styles.Length > 0
      && currentIndexRef == currentIndex < styles.Length
      && InRange(pending, styles.Length)
      && OnlyShown(Settle(styles[..], pending), currentIndex)
    }

    /** Mounting: every slide starts at the browser's default (opacity 1,
        z-index auto, here 0) and the initialising effect then shows slide 0. */
    constructor (n: nat)
      requires Renders(n)
      ensures Valid() && fresh(styles)
      ensures styles.Length == n && styles[..] == InitialStyles(n)
      ensures currentIndex == 0 && pending == []
    {
      styles := new SlideStyle[n](_ => SlideStyle(1, 0));
      currentIndexRef, currentIndex := 0, 0;
      pending := [];
      new;
      InitStyles();
      InitialOnlyShown(n);
    }

    /** The initialising effect's loop over the slides. */
    method InitStyles()
      modifies styles
      ensures styles[..] == InitialStyles(styles.Length)
    {
      var i := 0;
      while i < styles.Length
        invariant 0 <= i <= styles.Length
        invariant forall k :: 0 <= k < i ==> styles[k] == InitialStyles(styles.Length)[k]
      {
        if i == 0 {
          styles[i] := SlideStyle(1, 1);
        } else {
          styles[i] := SlideStyle(0, 0);
        }
        i := i + 1;
      }
    }

    /** Starting the cross-fade from `old` to `new`, writing only those two
        slides. */
    method StartFade(next: nat, prev: nat)
      requires next < styles.Length && prev < styles.Length
      modifies styles
      ensures styles[..] == Begin(old(styles[..]), Fade(next, prev))
    {
      styles[next] := SlideStyle(0, 1);
      styles[prev] := styles[prev].(zIndex := 1);
    }

    /** goToSlide: normalise the target; nothing happens if it is the current
        slide; otherwise the fade starts and both index copies move. */
    method GoToSlide(target: int)
      requires Valid() && target >= -(styles.Length as int)
      modifies this, styles
      ensures Valid() && styles == old(styles)
      ensures currentIndex == Normalize(target, styles.Length)
      ensures currentIndex == old(currentIndex) ==> styles[..] == old(styles[..]) && pending == old(pending)
      ensures currentIndex != old(currentIndex) ==>
        styles[..] == Begin(old(styles[..]), Fade(currentIndex, old(currentIndex)))
        && pending == old(pending) + [Fade(currentIndex, old(currentIndex))]
    {
      var newIndex := Normalize(target, styles.Length);
      var oldIndex := currentIndexRef;
      if newIndex == oldIndex {
        return;
      }
      BeginKeepsOnlyShown(styles[..], pending, oldIndex, newIndex);
      StartFade(newIndex, oldIndex);
      pending := pending + [Fade(newIndex, oldIndex)];
      currentIndexRef := newIndex;
      currentIndex := newIndex;
    }

    method NextSlide()
      requires Valid()
      modifies this, styles
      ensures Valid() && styles == old(styles)
      ensures currentIndex == Normalize(old(currentIndex) + 1, styles.Length)
      ensures pending == old(pending) + (if currentIndex == old(currentIndex) then [] else [Fade(currentIndex, old(currentIndex))])
      ensures currentIndex == old(currentIndex) ==> styles[..] == old(styles[..])
      ensures currentIndex != old(currentIndex) ==> styles[..] == Begin(old(styles[..]), Fade(currentIndex, old(currentIndex)))
    {
      GoToSlide(currentIndexRef + 1);
    }

    method PrevSlide()
      requires Valid()
      modifies this, styles
      ensures Valid() && styles == old(styles)
      ensures currentIndex == Normalize(old(currentIndex) - 1, styles.Length)
      ensures pending == old(pending) + (if currentIndex == old(currentIndex) then [] else [Fade(currentIndex, old(currentIndex))])
      ensures currentIndex == old(currentIndex) ==> styles[..] == old(styles[..])
      ensures currentIndex != old(currentIndex) ==> styles[..] == Begin(old(styles[..]), Fade(currentIndex, old(currentIndex)))
    {
      GoToSlide(currentIndexRef - 1);
    }

    /** The autoplay interval's tick, with the same-slide guard of goToSlide
        (see TickAsWritten for the tick as the source writes it). */
    method AutoplayTick()
      requires Valid()
      modifies this, styles
      ensures Valid() && styles == old(styles)
      ensures currentIndex == Normalize(old(currentIndex) + 1, styles.Length)
      ensures pending == old(pending) + (if currentIndex == old(currentIndex) then [] else [Fade(currentIndex, old(currentIndex))])
      ensures currentIndex == old(currentIndex) ==> styles[..] == old(styles[..])
      ensures currentIndex != old(currentIndex) ==> styles[..] == Begin(old(styles[..]), Fade(currentIndex, old(currentIndex)))
    {
      GoToSlide(currentIndexRef + 1);
    }

    /** The oldest fade in flight ends: the incoming slide is fully shown and
        the outgoing one hidden and lowered. */
    method FadeEnds()
      requires Valid() && pending != []
      modifies this, styles
      ensures Valid() && styles == old(styles)
      ensures styles[..] == Finish(old(styles[..]), old(pending[0]))
      ensures pending == old(pending[1..]) && currentIndex == old(currentIndex)
    {
      var f := pending[0];
      FinishKeepsSettled(styles[..], pending);
      styles[f.incoming] := styles[f.incoming].(opacity := 1);
      styles[f.outgoing] := SlideStyle(0, 0);
      pending := pending[1..];
    }

    /** When no fade is in flight, exactly one slide is visible: the current one. */
    lemma SettledShowsCurrent()
      requires Valid() && pending == []
      ensures Visible(styles[..]) == {currentIndex}
    {
      OnlyShownVisible(styles[..], currentIndex);
    }
  }

  // ---------------------------------------------------------------------------
  // The autoplay tick as written

  /** The tick as the source writes it: it always starts a fade from the
      current slide to `(cur + 1) % len`, with no same-slide guard. */
  function TickAsWritten(s: seq<SlideStyle>, cur: nat): (r: (seq<SlideStyle>, Fade))
    requires cur < |s|
    ensures r.1.incoming < |s| && r.1.outgoing == cur && r.0 == Begin(s, r.1)
  {
    var f := Fade((cur + 1) % |s|, cur);
    (Begin(s, f), f)
  }

  /** With a single slide, the unguarded tick fades that slide in and out at
      once; the fade-out wins and, once the fade ends, no slide is visible. */
  lemma TickAsWrittenHidesSingleSlide()
    ensures var r := TickAsWritten(InitialStyles(1), 0);
            Visible(Finish(r.0, r.1)) == {}
  {
    var r := TickAsWritten(InitialStyles(1), 0);
    assert r.1 == Fade(0, 0);
    assert Finish(r.0, r.1) == [SlideStyle(0, 0)];
  }

  /** The guarded tick changes nothing on a one-slide carousel: its only
      slide keeps its style and stays shown. */
  method SingleSlideTick() returns (styles: seq<SlideStyle>, visible: set<nat>)
    ensures styles == InitialStyles(1) && visible == {0}
  {
    var c := new Carousel(1);
    c.AutoplayTick();
    c.SettledShowsCurrent();
    styles, visible := c.styles[..], Visible(c.styles[..]);
  }

  /** A run through the three photos: next, next, previous, an indicator
      click on the current slide, and the fades ending. Slide 1 is then the
      only one shown. */
  method ThreePhotos() returns (index: nat, visible: set<nat>)
    ensures index == 1 && visible == {1}
  {
    var c := new Carousel(3);
    c.NextSlide();
    c.NextSlide();
    c.PrevSlide();
    c.GoToSlide(1);
    c.FadeEnds();
    c.FadeEnds();
    c.FadeEnds();
    c.SettledShowsCurrent();
    index, visible := c.currentIndex, Visible(c.styles[..]);
  }
}
