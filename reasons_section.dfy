/** The "things I love about you" cards: each card swings into a resting tilt,
    and the first time the section scrolls into view a paper-slide sound
    plays and a short run of polaroid sounds and one tape sound is scheduled. */
module ReasonsSection {

  import opened Numbers

  /** The sounds the section plays. */
  datatype Sound = Polaroid | Tape | PaperSlide

  /** A sound scheduled `delay` milliseconds after the section is entered. */
  datatype Timer = Timer(sound: Sound, delay: nat)

  /** At most this many polaroid sounds are played. */
  const MaxPolaroids: nat := 3

  // ---------------------------------------------------------------------------
  // The sound schedule

  /** How many polaroid sounds `cardCount` cards get. */
  function SoundCount(cardCount: nat): (r: nat)
    ensures r <= MaxPolaroids && r <= cardCount
    ensures r == MaxPolaroids || r == cardCount
  {
    if cardCount < MaxPolaroids then cardCount else MaxPolaroids
  }

  function PolaroidDelay(i: nat): nat {
    i * 150 + 100
  }

  function TapeDelay(soundCount: nat): nat {
    soundCount * 150 + 300
  }

  /** The timers set for `cardCount` cards, in the order they are set: the
      polaroid sounds, then the tape sound. */
  function Schedule(cardCount: nat): seq<Timer> {
    var k := SoundCount(cardCount);
    seq(k, i requires 0 <= i < k => Timer(Polaroid, PolaroidDelay(i))) + [Timer(Tape, TapeDelay(k))]
  }

  /** How many timers of a schedule play `s`. */
  function SoundTally(t: seq<Timer>, s: Sound): (r: nat)
    ensures r <= |t|
  {
    if t == [] then 0 else SoundTally(t[..|t| - 1], s) + (if t[|t| - 1].sound == s then 1 else 0)
  }

  lemma {:induction false} PolaroidTally(k: nat)
    ensures SoundTally(seq(k, i requires 0 <= i < k => Timer(Polaroid, PolaroidDelay(i))), Polaroid) == k
    ensures SoundTally(seq(k, i requires 0 <= i < k => Timer(Polaroid, PolaroidDelay(i))), Tape) == 0
  {
    var t := seq(k, i requires 0 <= i < k => Timer(Polaroid, PolaroidDelay(i)));
    if k > 0 {
      assert t[..k - 1] == seq(k - 1, i requires 0 <= i < k - 1 => Timer(Polaroid, PolaroidDelay(i)));
      PolaroidTally(k - 1);
    }
  }

  /** The schedule holds `min(cardCount, 3)` polaroid sounds and one tape
      sound, the tape sound last; the delays strictly increase, so the
      sounds play in the order they were scheduled. */
  lemma ScheduleShape(cardCount: nat)
    ensures var t := Schedule(cardCount);
      && |t| == SoundCount(cardCount) + 1
      && SoundTally(t, Polaroid) == SoundCount(cardCount)
      && SoundTally(t, Tape) == 1
      && t[|t| - 1] == Timer(Tape, TapeDelay(SoundCount(cardCount)))
      && (forall i, j :: 0 <= i < j < |t| ==> t[i].delay < t[j].delay)
  {
    var k := SoundCount(cardCount);
    var t := Schedule(cardCount);
    var p := seq(k, i requires 0 <= i < k => Timer(Polaroid, PolaroidDelay(i)));
    assert t[..|t| - 1] == p;
    PolaroidTally(k);
  }

  /** The tape sound plays 350 ms after the last polaroid sound, or 300 ms
      after entering when there are no cards. */
  lemma TapeGap(cardCount: nat)
    ensures var k := SoundCount(cardCount);
      k > 0 ==> TapeDelay(k) == PolaroidDelay(k - 1) + 350
    ensures cardCount == 0 ==> Schedule(cardCount) == [Timer(Tape, 300)]
  {
    if cardCount == 0 {
      assert Schedule(cardCount) == [] + [Timer(Tape, TapeDelay(0))];
    }
  }

  /** A sequence of timers is the schedule for some card count. */
  predicate IsSchedule(t: seq<Timer>) {
    |t| > 0 && t == Schedule(|t| - 1)
  }

  /** Every schedule is recognised as one: only the number of polaroid
      sounds, not the card count beyond three, shapes it. */
  lemma ScheduleIsSchedule(cardCount: nat)
    ensures IsSchedule(Schedule(cardCount))
  {
    var k := SoundCount(cardCount);
    assert |Schedule(cardCount)| - 1 == k;
    assert SoundCount(k) == k;
  }

  // ---------------------------------------------------------------------------
  // The swing

  /** The resting tilt of card `idx`, in degrees: -2, 0, 2 in turn. */
  function FinalRotation(idx: nat): (r: int)
    ensures r == -2 || r == 0 || r == 2
  {
    (idx % 3 - 1) * 2
  }

  /** The tilts repeat every three cards, and neighbouring cards differ. */
  lemma FinalRotationPeriodic(idx: nat)
    ensures FinalRotation(idx + 3) == FinalRotation(idx)
    ensures FinalRotation(idx + 1) != FinalRotation(idx)
  {
    var q := idx / 3;
    var m := idx % 3;
    assert idx == 3 * q + m;
    assert idx + 3 == 3 * (q + 1) + m;
    if m < 2 {
      assert idx + 1 == 3 * q + (m + 1);
    } else {
      assert idx + 1 == 3 * (q + 1) + 0;
    }
  }

  /** The tilts a card swings through on its way to rest. */
  function Swing(final: int): (r: seq<int>)
    ensures |r| == 5 && r[4] == final
    ensures forall i :: 0 <= i < 4 ==> (r[i] > final <==> i % 2 == 0) && r[i] != final
    ensures forall i :: 0 <= i < 3 ==> Abs(r[i] - final) > Abs(r[i + 1] - final)
  {
    [final + 12, final - 8, final + 5, final - 3, final]
  }

  /** The timeline set up for one card: its start delay and the tilts it
      swings through. */
  datatype CardTimeline = CardTimeline(delay: nat, tilts: seq<int>)

  /** The timelines the setup effect creates: none without cards or without
      the section element, otherwise one per card, 150 ms apart, each coming
      to rest at its card's tilt. */
  function CardTimelines(cardCount: nat, hasSection: bool): (r: seq<CardTimeline>)
    ensures cardCount == 0 || !hasSection ==> r == []
    ensures cardCount > 0 && hasSection ==> |r| == cardCount
    ensures forall i :: 0 <= i < |r| ==> r[i].delay == 150 * i
    ensures forall i :: 0 <= i < |r| ==> |r[i].tilts| == 5 && r[i].tilts[4] == FinalRotation(i)
  {
    if cardCount == 0 || !hasSection then []
    else seq(cardCount, i requires 0 <= i < cardCount => CardTimeline(150 * i, Swing(FinalRotation(i))))
  }

  // ---------------------------------------------------------------------------
  // The component

  class Reasons {
    /** The number of card elements the setup effect found. */
    var cardCount: nat
    /** How many scroll triggers, each with its own enter callback, exist. */
    var triggers: nat
    var hasPlayedSounds: bool
    var hasPlayedTransition: bool
    /** Timers set, in the order they were set. */
    var scheduled: seq<Timer>
    /** How many of them have fired. */
    var fired: nat
    /** How often the paper-slide sound was played. */
    var paperSlides: nat

    ghost predicate Valid()
      reads this
    {
      && (!hasPlayedSounds ==> scheduled == [])
      && (hasPlayedSounds ==> IsSchedule(scheduled))
      && fired <= |scheduled|
      && paperSlides == (if hasPlayedTransition then 1 else 0)
    }

    /** Mounting and running the setup effect. */
    constructor (cards: nat, hasSection: bool)
      ensures Valid()
      ensures cardCount == cards && triggers == |CardTimelines(cards, hasSection)|
      ensures !hasPlayedSounds && !hasPlayedTransition && scheduled == [] && paperSlides == 0
    {
      cardCount := cards;
      triggers := |CardTimelines(cards, hasSection)|;
      hasPlayedSounds, hasPlayedTransition := false, false;
      scheduled, fired, paperSlides := [], 0, 0;
    }

    /** playSoundsForCards: the first call sets the polaroid timers and the
        tape timer; every later call does nothing. */
    method PlaySoundsForCards(count: nat)
      requires Valid()
      modifies this`hasPlayedSounds, this`scheduled
      ensures Valid() && hasPlayedSounds
      ensures old(hasPlayedSounds) ==> scheduled == old(scheduled)
      ensures !old(hasPlayedSounds) ==> scheduled == Schedule(count)
    {
      if hasPlayedSounds {
        return;
      }
      hasPlayedSounds := true;
      ScheduleIsSchedule(count);
      var soundCount := SoundCount(count);
      for i := 0 to soundCount
        invariant scheduled == seq(i, j requires 0 <= j < i => Timer(Polaroid, PolaroidDelay(j)))
        invariant hasPlayedSounds
      {
        scheduled := scheduled + [Timer(Polaroid, PolaroidDelay(i))];
      }
      scheduled := scheduled + [Timer(Tape, TapeDelay(soundCount))];
      assert scheduled == Schedule(count);
    }

    /** One trigger's enter callback: the paper-slide sound the first time,
        then the card sounds. */
    method OnEnter()
      requires Valid()
      modifies this`hasPlayedTransition, this`paperSlides, this`hasPlayedSounds, this`scheduled
      ensures Valid() && hasPlayedTransition && hasPlayedSounds && paperSlides == 1
      ensures old(hasPlayedSounds) ==> scheduled == old(scheduled)
      ensures !old(hasPlayedSounds) ==> scheduled == Schedule(cardCount)
    {
      if !hasPlayedTransition {
        hasPlayedTransition := true;
        paperSlides := paperSlides + 1;
      }
      PlaySoundsForCards(cardCount);
    }

    /** The section scrolls into view: every trigger runs its callback. */
    method SectionEnters()
      requires Valid()
      modifies this`hasPlayedTransition, this`paperSlides, this`hasPlayedSounds, this`scheduled
      ensures Valid()
      ensures triggers == 0 ==>
        (hasPlayedTransition == old(hasPlayedTransition) && paperSlides == old(paperSlides) && scheduled == old(scheduled))
      ensures triggers > 0 ==>
        (paperSlides == 1 && hasPlayedSounds && scheduled == if old(hasPlayedSounds) then old(scheduled) else Schedule(cardCount))
    {
      for k := 0 to triggers
        invariant Valid()
        invariant k == 0 ==>
          (hasPlayedTransition == old(hasPlayedTransition) && paperSlides == old(paperSlides) && scheduled == old(scheduled))
        invariant k > 0 ==>
          (paperSlides == 1 && hasPlayedSounds && scheduled == if old(hasPlayedSounds) then old(scheduled) else Schedule(cardCount))
      {
        OnEnter();
      }
    }

    /** The earliest timer still pending fires; timers fire in the order they
        were set, since their delays increase. */
    method TimerFires() returns (s: Sound)
      requires Valid() && fired < |scheduled|
      modifies this`fired
      ensures Valid() && fired == old(fired) + 1 && s == scheduled[old(fired)].sound
    {
      s := scheduled[fired].sound;
      fired := fired + 1;
    }
  }

  /** Six cards, as on the site: six callbacks on the first entry, a second
      entry, and every timer firing. One paper-slide sound, three polaroid
      sounds and then the tape sound play. */
  method SixCards() returns (paperSlides: nat, played: seq<Sound>)
    ensures paperSlides == 1 && played == [Polaroid, Polaroid, Polaroid, Tape]
  {
    var r := new Reasons(6, true);
    r.SectionEnters();
    r.SectionEnters();
    assert r.scheduled == [Timer(Polaroid, 100), Timer(Polaroid, 250), Timer(Polaroid, 400), Timer(Tape, 750)];
    played := [];
    while r.fired < |r.scheduled|
      invariant r.Valid() && r.scheduled == Schedule(6) && r.paperSlides == 1
      invariant |played| == r.fired && forall i :: 0 <= i < |played| ==> played[i] == r.scheduled[i].sound
      decreases |r.scheduled| - r.fired
    {
      var s := r.TimerFires();
      played := played + [s];
    }
    paperSlides := r.paperSlides;
  }

  /** Without a section element nothing is set up, so entering plays nothing. */
  method NoSection() returns (paperSlides: nat, scheduled: seq<Timer>)
    ensures paperSlides == 0 && scheduled == []
  {
    var r := new Reasons(6, false);
    r.SectionEnters();
    paperSlides, scheduled := r.paperSlides, r.scheduled;
  }
}
