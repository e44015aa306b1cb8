/** The treasure-hunt quiz: a fixed list of five clues, a free-text guess that
    is normalised and compared with the current clue's answer, and the timers
    that clear the "try again" hint, reveal the answer and then advance to the
    next clue or complete the hunt. */
module TreasureHunt {

  /** One clue. Only the fields the logic reads are kept; hint, reveal text
      and emoji are display text. */
  datatype Clue = Clue(id: nat, answer: string)

  /** The hunt's clues, in order. */
  const Clues: seq<Clue> := [
    Clue(1, "salt bread"),
    Clue(2, "matcha"),
    Clue(3, "law and order"),
    Clue(4, "lillies"),
    Clue(5, "Manny Pacquiao")
  ]

  // ---------------------------------------------------------------------------
  // Characters and strings

  /** ECMAScript white space and line terminators: exactly the characters that
      the regular expression `\s` matches and that `trim()` removes. */
  predicate IsSpace(c: char) {
    || c == ' '
    || '\t' <= c <= '\r'
    || c == '\U{00A0}' || c == '\U{1680}'
    || '\U{2000}' <= c <= '\U{200A}'
    || c == '\U{2028}' || c == '\U{2029}' || c == '\U{202F}'
    || c == '\U{205F}' || c == '\U{3000}' || c == '\U{FEFF}'
  }

  predicate AllSpace(s: string) {
    forall i :: 0 <= i < |s| ==> IsSpace(s[i])
  }

  /** No white space at either end: what `trim()` leaves. */
  predicate Trimmed(s: string) {
    s == [] || (!IsSpace(s[0]) && !IsSpace(s[|s| - 1]))
  }

  /** `toLowerCase` on one character; only the ASCII letters are mapped. */
  function LowerChar(c: char): char {
    if 'A' <= c <= 'Z' then (c as int + 32) as char else c
  }

  function Lower(s: string): string {
    seq(|s|, i requires 0 <= i < |s| => LowerChar(s[i]))
  }

  /** Removes the leading white space. */
  function TrimStart(s: string): string {
    if s != [] && IsSpace(s[0]) then TrimStart(s[1..]) else s
  }

  /** Removes the trailing white space. */
  function TrimEnd(s: string): string {
    if s != [] && IsSpace(s[|s| - 1]) then TrimEnd(s[..|s| - 1]) else s
  }

  /** `String.prototype.trim`. */
  function Trim(s: string): string {
    TrimEnd(TrimStart(s))
  }

  /** `s.replace(/\s/g, '')`: every white-space character removed. */
  function RemoveSpaces(s: string): string {
    if s == [] then [] else (if IsSpace(s[0]) then [] else [s[0]]) + RemoveSpaces(s[1..])
  }

  /** TrimStart keeps a suffix of its input, drops only white space, and
      leaves no white space at the front. */
  lemma {:induction false} TrimStartShape(s: string)
    ensures var r := TrimStart(s);
      && |r| <= |s| && r == s[|s| - |r|..]
      && AllSpace(s[..|s| - |r|])
      && (r == [] || !IsSpace(r[0]))
  {
    if s != [] && IsSpace(s[0]) {
      TrimStartShape(s[1..]);
      var r := TrimStart(s[1..]);
      assert s[1..][|s[1..]| - |r|..] == s[|s| - |r|..];
      assert s[..|s| - |r|] == [s[0]] + s[1..][..|s[1..]| - |r|];
    }
  }

  /** TrimEnd keeps a prefix of its input, drops only white space, and
      leaves no white space at the back. */
  lemma {:induction false} TrimEndShape(s: string)
    ensures var r := TrimEnd(s);
      && |r| <= |s| && r == s[..|r|]
      && AllSpace(s[|r|..])
      && (r == [] || !IsSpace(r[|r| - 1]))
  {
    if s != [] && IsSpace(s[|s| - 1]) {
      var t := s[..|s| - 1];
      TrimEndShape(t);
      var r := TrimEnd(t);
      assert t[..|r|] == s[..|r|];
      assert s[|r|..] == t[|r|..] + [s[|s| - 1]];
    }
  }

  /** Trim leaves no white space at either end. */
  lemma TrimTrimmed(s: string)
    ensures Trimmed(Trim(s))
  {
    TrimStartShape(s);
    TrimEndShape(TrimStart(s));
  }

  /** RemoveSpaces leaves no white space and never lengthens its input. */
  lemma {:induction false} RemoveSpacesShape(s: string)
    ensures |RemoveSpaces(s)| <= |s|
    ensures forall i :: 0 <= i < |RemoveSpaces(s)| ==> !IsSpace(RemoveSpaces(s)[i])
  {
    if s != [] {
      RemoveSpacesShape(s[1..]);
    }
  }

  // ---------------------------------------------------------------------------
  // Facts about the string functions

  lemma LowerKeepsSpaces(s: string)
    ensures |Lower(s)| == |s|
    ensures forall i :: 0 <= i < |s| ==> (IsSpace(Lower(s)[i]) <==> IsSpace(s[i]))
  {
  }

  /** Lower-casing changes no character into or out of white space. */
  lemma LowerSpaceShape(s: string)
    ensures AllSpace(Lower(s)) <==> AllSpace(s)
    ensures Trimmed(Lower(s)) <==> Trimmed(s)
  {
    LowerKeepsSpaces(s);
  }

  lemma LowerAppend(a: string, b: string)
    ensures Lower(a + b) == Lower(a) + Lower(b)
  {
  }

  lemma LowerSlice(s: string, k: nat, m: nat)
    requires k <= m <= |s|
    ensures Lower(s)[k..m] == Lower(s[k..m])
  {
  }

  /** Trim keeps a contiguous middle part of its input and drops only white
      space around it. */
  lemma TrimDecompose(s: string) returns (k: nat, m: nat)
    ensures k <= m <= |s|
    ensures s[k..m] == Trim(s) && Trimmed(s[k..m])
    ensures AllSpace(s[..k]) && AllSpace(s[m..])
  {
    TrimTrimmed(s);
    var t := TrimStart(s);
    TrimStartShape(s);
    k := |s| - |t|;
    var r := TrimEnd(t);
    TrimEndShape(t);
    m := k + |r|;
    assert s[k..m] == t[..|r|];
    assert s[m..] == t[|r|..];
  }

  lemma {:induction false} TrimStartSkips(p: string, rest: string)
    requires AllSpace(p)
    ensures TrimStart(p + rest) == TrimStart(rest)
  {
    if p != [] {
      var s := p + rest;
      assert s[0] == p[0] && IsSpace(s[0]);
      assert s[1..] == p[1..] + rest;
      assert TrimStart(s) == TrimStart(s[1..]);
      TrimStartSkips(p[1..], rest);
    } else {
      assert p + rest == rest;
    }
  }

  lemma {:induction false} TrimEndSkips(rest: string, q: string)
    requires AllSpace(q)
    ensures TrimEnd(rest + q) == TrimEnd(rest)
  {
    if q != [] {
      var q' := q[..|q| - 1];
      assert (rest + q)[..|rest + q| - 1] == rest + q';
      TrimEndSkips(rest, q');
    } else {
      assert rest + q == rest;
    }
  }

  /** Trim is exactly "strip the white space around a trimmed core": padding a
      trimmed string with white space on either side and trimming gives it
      back. */
  lemma TrimOfPadded(p: string, c: string, q: string)
    requires AllSpace(p) && AllSpace(q) && Trimmed(c)
    ensures Trim(p + c + q) == c
  {
    assert p + c + q == p + (c + q);
    TrimStartSkips(p, c + q);
    if c == [] {
      assert c + q == q;
      TrimStartShape(q);
    } else {
      assert TrimStart(c + q) == c + q;
      TrimEndSkips(c, q);
      assert TrimEnd(c) == c;
    }
  }

  lemma TrimIdempotent(s: string)
    ensures Trim(Trim(s)) == Trim(s)
  {
    assert [] + Trim(s) + [] == Trim(s);
    TrimTrimmed(s);
    TrimOfPadded([], Trim(s), []);
  }

  /** A string with a non-space character keeps it after RemoveSpaces. */
  lemma {:induction false} RemoveSpacesKeepsText(s: string, i: nat)
    requires i < |s| && !IsSpace(s[i])
    ensures RemoveSpaces(s) != []
  {
    if i > 0 && IsSpace(s[0]) {
      RemoveSpacesKeepsText(s[1..], i - 1);
    }
  }

  /** A string without white space is left as it is by RemoveSpaces. */
  lemma {:induction false} RemoveSpacesOfSpaceFree(s: string)
    requires forall i :: 0 <= i < |s| ==> !IsSpace(s[i])
    ensures RemoveSpaces(s) == s
  {
    if s != [] {
      RemoveSpacesOfSpaceFree(s[1..]);
      assert [s[0]] + s[1..] == s;
    }
  }

  lemma {:induction false} RemoveSpacesAppend(a: string, b: string)
    ensures RemoveSpaces(a + b) == RemoveSpaces(a) + RemoveSpaces(b)
  {
    if a != [] {
      assert (a + b)[0] == a[0];
      assert (a + b)[1..] == a[1..] + b;
      RemoveSpacesAppend(a[1..], b);
    } else {
      assert a + b == b;
    }
  }

  /** Lower-case ASCII letters only. */
  predicate LowerWord(w: string) {
    forall i :: 0 <= i < |w| ==> 'a' <= w[i] <= 'z'
  }

  /** Removing the white space of "word, space, rest" joins the word to the
      rest. */
  lemma RemoveSpacesOfWord(w: string, rest: string)
    requires LowerWord(w)
    ensures RemoveSpaces(w + " " + rest) == w + RemoveSpaces(rest)
  {
    var sp := " ";
    assert RemoveSpaces(sp) == [] by {
      assert IsSpace(sp[0]) && sp[1..] == [];
    }
    RemoveSpacesAppend(w, sp);
    RemoveSpacesAppend(w + sp, rest);
    RemoveSpacesOfSpaceFree(w);
    var joined := RemoveSpaces(w + sp);
    assert joined == w + [];
    assert joined == w;
  }

  lemma {:induction false} LowerRemoveSpaces(s: string)
    ensures Lower(RemoveSpaces(s)) == RemoveSpaces(Lower(s))
  {
    if s != [] {
      LowerRemoveSpaces(s[1..]);
      assert Lower(s)[1..] == Lower(s[1..]);
      LowerAppend(if IsSpace(s[0]) then [] else [s[0]], RemoveSpaces(s[1..]));
    }
  }

  // ---------------------------------------------------------------------------
  // The answer check of handleSubmitGuess

  /** The guess, lower-cased and trimmed, equals the lower-cased answer, or the
      lower-cased answer with every white-space character removed. */
  predicate IsCorrect(guess: string, answer: string) {
    var g := Trim(Lower(guess));
    var a := Lower(answer);
    g == a || g == RemoveSpaces(a)
  }

  /** A slice of a string is blank, or trimmed, exactly when that slice
      of its lower-cased form is. */
  lemma LowerSliceShape(s: string, i: nat, j: nat)
    requires i <= j <= |s|
    ensures AllSpace(Lower(s)[i..j]) <==> AllSpace(s[i..j])
    ensures Trimmed(Lower(s)[i..j]) <==> Trimmed(s[i..j])
  {
    LowerSlice(s, i, j);
    LowerSpaceShape(s[i..j]);
  }

  /** Trimming the lower-cased guess keeps a middle slice of the guess
      itself, lower-cased, and drops white space on both sides. */
  lemma TrimLowerParts(guess: string) returns (k: nat, m: nat)
    ensures k <= m <= |guess|
    ensures AllSpace(guess[..k]) && AllSpace(guess[m..]) && Trimmed(guess[k..m])
    ensures Lower(guess[k..m]) == Trim(Lower(guess))
  {
    var lg := Lower(guess);
    k, m := TrimDecompose(lg);
    var n := |guess|;
    assert lg[..k] == lg[0..k] && guess[..k] == guess[0..k];
    assert lg[m..] == lg[m..n] && guess[m..] == guess[m..n];
    LowerSliceShape(guess, 0, k);
    LowerSliceShape(guess, k, m);
    LowerSliceShape(guess, m, n);
    LowerSlice(guess, k, m);
  }

  /** Every accepted guess is white space, then a core that is the answer up to
      letter case (or the answer with its spaces removed), then white space. */
  lemma AcceptedGuessIsPaddedAnswer(guess: string, answer: string) returns (k: nat, m: nat)
    requires IsCorrect(guess, answer)
    ensures k <= m <= |guess|
    ensures AllSpace(guess[..k]) && AllSpace(guess[m..]) && Trimmed(guess[k..m])
    ensures Lower(guess[k..m]) == Lower(answer) || Lower(guess[k..m]) == RemoveSpaces(Lower(answer))
  {
    k, m := TrimLowerParts(guess);
  }

  /** Conversely, every such padded answer is accepted: the check ignores
      letter case and white space around the guess, but nothing inside it. */
  lemma PaddedAnswerAccepted(p: string, c: string, q: string, answer: string)
    requires AllSpace(p) && AllSpace(q) && Trimmed(c)
    requires Lower(c) == Lower(answer) || Lower(c) == RemoveSpaces(Lower(answer))
    ensures IsCorrect(p + c + q, answer)
  {
    LowerAppend(p + c, q);
    LowerAppend(p, c);
    LowerKeepsSpaces(p);
    LowerKeepsSpaces(c);
    LowerKeepsSpaces(q);
    TrimOfPadded(Lower(p), Lower(c), Lower(q));
  }

  /** A guess that is empty or only white space is never accepted, because the
      answer has a character that is not white space. */
  lemma BlankGuessRejected(guess: string, answer: string)
    requires AllSpace(guess)
    requires !AllSpace(answer)
    ensures !IsCorrect(guess, answer)
  {
    LowerKeepsSpaces(guess);
    assert Lower(guess) + [] + [] == Lower(guess);
    TrimOfPadded(Lower(guess), [], []);
    var i :| 0 <= i < |answer| && !IsSpace(answer[i]);
    LowerKeepsSpaces(answer);
    RemoveSpacesKeepsText(Lower(answer), i);
  }

  /** Every stored answer has a character that is not white space, so a blank
      guess is rejected at every clue. */
  lemma AnswersAreNotBlank(j: nat)
    requires j < |Clues|
    ensures !AllSpace(Clues[j].answer)
  {
    assert !IsSpace(Clues[j].answer[0]);
  }

  /** The answer with all its white space removed is always accepted. */
  lemma SpaceFreeAnswerAccepted(answer: string)
    ensures IsCorrect(RemoveSpaces(answer), answer)
  {
    var c := RemoveSpaces(answer);
    RemoveSpacesShape(answer);
    assert Trimmed(c);
    var lc := Lower(c);
    LowerSpaceShape(c);
    assert [] + lc + [] == lc;
    TrimOfPadded([], lc, []);
    LowerRemoveSpaces(answer);
  }

  // The worked examples. Each is proved once for variables bound to the
  // strings, which keeps the prover from unfolding the string functions on
  // the literals; SolutionsAccepted then states them for the clues.

  lemma PaddedCase(guess: string, answer: string)
    requires guess == " Salt Bread " && answer == "salt bread"
    ensures IsCorrect(guess, answer)
  {
    var c := "Salt Bread";
    assert Lower(c) == answer;
    assert guess == " " + c + " ";
    PaddedAnswerAccepted(" ", c, " ", answer);
  }

  /** Two words joined by one space lose only that space. */
  lemma JoinWords(w1: string, w2: string)
    requires LowerWord(w1) && LowerWord(w2)
    ensures RemoveSpaces(w1 + " " + w2) == w1 + w2
  {
    RemoveSpacesOfWord(w1, w2);
    RemoveSpacesOfSpaceFree(w2);
  }

  lemma SaltBreadJoined(guess: string, answer: string)
    requires guess == "saltbread" && answer == "salt bread"
    ensures RemoveSpaces(answer) == guess
  {
    var w1, w2 := "salt", "bread";
    assert LowerWord(w1) && LowerWord(w2);
    JoinWords(w1, w2);
    assert answer == w1 + " " + w2;
    assert w1 + w2 == guess;
  }

  lemma JoinedCase(guess: string, answer: string)
    requires guess == "saltbread" && answer == "salt bread"
    ensures IsCorrect(guess, answer)
  {
    SaltBreadJoined(guess, answer);
    SpaceFreeAnswerAccepted(answer);
  }

  lemma DoubledSpaceCase(guess: string, answer: string)
    requires guess == "salt  bread" && answer == "salt bread"
    ensures !IsCorrect(guess, answer)
  {
    LowerKeepsSpaces(guess);
    assert !IsSpace(guess[0]) && !IsSpace(guess[|guess| - 1]);
    var lg := Lower(guess);
    assert lg == [] + lg + [];
    TrimOfPadded([], lg, []);
    assert |Trim(lg)| == 11;
    RemoveSpacesShape(Lower(answer));
    assert |Lower(answer)| == 10;
  }

  lemma MatchaCase(guess: string, answer: string)
    requires guess == "matcha " && answer == "matcha"
    ensures IsCorrect(guess, answer)
  {
    assert Lower(answer) == answer;
    assert guess == [] + answer + " ";
    PaddedAnswerAccepted([], answer, " ", answer);
  }

  /** Three words joined by single spaces lose only those spaces. */
  lemma JoinThreeWords(w1: string, w2: string, w3: string)
    requires LowerWord(w1) && LowerWord(w2) && LowerWord(w3)
    ensures RemoveSpaces(w1 + " " + w2 + " " + w3) == w1 + w2 + w3
  {
    var tail := w2 + " " + w3;
    JoinWords(w2, w3);
    RemoveSpacesOfWord(w1, tail);
    assert w1 + " " + w2 + " " + w3 == w1 + " " + tail;
    assert w1 + (w2 + w3) == w1 + w2 + w3;
  }

  lemma LawAndOrderJoined(guess: string, answer: string)
    requires guess == "lawandorder" && answer == "law and order"
    ensures RemoveSpaces(answer) == guess
  {
    var w1, w2, w3 := "law", "and", "order";
    assert LowerWord(w1) && LowerWord(w2) && LowerWord(w3);
    JoinThreeWords(w1, w2, w3);
    assert answer == w1 + " " + w2 + " " + w3;
    assert w1 + w2 + w3 == guess;
  }

  lemma LawAndOrderCase(guess: string, answer: string)
    requires guess == "lawandorder" && answer == "law and order"
    ensures IsCorrect(guess, answer)
  {
    LawAndOrderJoined(guess, answer);
    SpaceFreeAnswerAccepted(answer);
  }

  lemma ExactCase(guess: string, answer: string)
    requires guess == "lillies" && answer == "lillies"
    ensures IsCorrect(guess, answer)
  {
    assert Lower(answer) == answer;
    assert guess == [] + answer + [];
    PaddedAnswerAccepted([], answer, [], answer);
  }

  lemma StoredCaseCase(guess: string, answer: string)
    requires guess == "manny pacquiao" && answer == "Manny Pacquiao"
    ensures IsCorrect(guess, answer)
  {
    assert Lower(answer) == guess && Lower(guess) == guess;
    assert guess == [] + guess + [];
    PaddedAnswerAccepted([], guess, [], answer);
  }

  // ---------------------------------------------------------------------------
  // Progress dots

  /** How one progress dot is drawn. */
  datatype Dot = Solved | Active | Pending

  /** Dot `idx` while clue `current` is shown. */
  function DotAt(idx: nat, current: nat): Dot {
    if idx < current then Solved else if idx == current then Active else Pending
  }

  /** One dot per clue. */
  function Dots(current: nat, total: nat): seq<Dot> {
    seq(total, i requires 0 <= i < total => DotAt(i, current))
  }

  /** How many of the dots are drawn as `d`. */
  function DotTally(ds: seq<Dot>, d: Dot): nat {
    if ds == [] then 0 else DotTally(ds[..|ds| - 1], d) + (if ds[|ds| - 1] == d then 1 else 0)
  }

  /** The dots before the current clue are solved, the current one is the only
      active dot, and the rest are pending. */
  lemma {:induction false} DotCounts(current: nat, total: nat)
    ensures DotTally(Dots(current, total), Active) == (if current < total then 1 else 0)
    ensures DotTally(Dots(current, total), Solved) == (if current < total then current else total)
    ensures DotTally(Dots(current, total), Pending) == (if current < total then total - current - 1 else 0)
  {
    if total > 0 {
      assert Dots(current, total)[..total - 1] == Dots(current, total - 1);
      DotCounts(current, total - 1);
    }
  }

  // ---------------------------------------------------------------------------
  // The component

  class Hunt {
    var currentClueIndex: nat
    var isComplete: bool
    var userGuess: string
    var showWrong: bool
    var showCorrect: bool
    /** The 2000 ms timer set by a correct answer has not fired yet. */
    var advancePending: bool
    /** How many 1500 ms timers set by wrong answers have not fired yet. */
    var wrongTimers: nat
    /** How many times onComplete has been called. */
    var completions: nat

    ghost predicate Valid()
      reads this
    {
      && currentClueIndex < |Clues|
      && (showCorrect <==> advancePending)
      && (isComplete ==> currentClueIndex == |Clues| - 1 && !showCorrect)
      && completions == (if isComplete then 1 else 0)
      && (showWrong ==> wrongTimers > 0)
    }

    /** The input field and the check button are rendered: neither the
        completion view nor the answer reveal is showing. */
    predicate InputShown()
      reads this
    {
      !isComplete && !showCorrect
    }

    constructor ()
      ensures Valid()
      ensures currentClueIndex == 0 && !isComplete && userGuess == []
      ensures !showWrong && !showCorrect && !advancePending && wrongTimers == 0 && completions == 0
    {
      currentClueIndex, isComplete, userGuess := 0, false, [];
      showWrong, showCorrect, advancePending := false, false, false;
      wrongTimers, completions := 0, 0;
    }

    /** Typing into the input; nothing happens when the input is not rendered. */
    method Type(text: string)
      requires Valid()
      modifies this`userGuess
      ensures Valid()
      ensures userGuess == if old(InputShown()) then text else old(userGuess)
    {
      if InputShown() {
        userGuess := text;
      }
    }

    /** handleSubmitGuess, reachable only while the input is rendered. */
    method SubmitGuess() returns (correct: bool)
      requires Valid() && InputShown()
      modifies this`showCorrect, this`showWrong, this`advancePending, this`wrongTimers
      ensures Valid()
      ensures correct == IsCorrect(userGuess, Clues[currentClueIndex].answer)
      ensures correct ==> showCorrect && !showWrong && advancePending && wrongTimers == old(wrongTimers)
      ensures !correct ==> showWrong && !showCorrect && !advancePending && wrongTimers == old(wrongTimers) + 1
    {
      correct := IsCorrect(userGuess, Clues[currentClueIndex].answer);
      assert Valid();
      if correct {
        showCorrect := true;
        showWrong := false;
        advancePending := true;
      } else {
        showWrong := true;
        wrongTimers := wrongTimers + 1;
      }
    }

    /** handleKeyDown: Enter submits, even for a blank guess; the key reaches
        the handler only while the input is rendered. */
    method KeyDown(key: string) returns (submitted: bool)
      requires Valid()
      modifies this`showCorrect, this`showWrong, this`advancePending, this`wrongTimers
      ensures Valid()
      ensures submitted == (old(InputShown()) && key == "Enter")
      ensures submitted ==> showCorrect == IsCorrect(userGuess, Clues[currentClueIndex].answer)
      ensures submitted ==> showWrong == !showCorrect && advancePending == showCorrect
      ensures submitted ==> wrongTimers == old(wrongTimers) + (if showCorrect then 0 else 1)
      ensures !submitted ==> (showCorrect == old(showCorrect) && showWrong == old(showWrong)
                              && advancePending == old(advancePending) && wrongTimers == old(wrongTimers))
    {
      submitted := InputShown() && key == "Enter";
      if submitted {
        var _ := SubmitGuess();
      }
    }

    /** A click on the check button, which is disabled while the trimmed guess
        is empty and not rendered outside the input view. */
    method ClickCheck() returns (submitted: bool)
      requires Valid()
      modifies this`showCorrect, this`showWrong, this`advancePending, this`wrongTimers
      ensures Valid()
      ensures submitted == (old(InputShown()) && Trim(userGuess) != [])
      ensures submitted ==> showCorrect == IsCorrect(userGuess, Clues[currentClueIndex].answer)
      ensures submitted ==> showWrong == !showCorrect && advancePending == showCorrect
      ensures submitted ==> wrongTimers == old(wrongTimers) + (if showCorrect then 0 else 1)
      ensures !submitted ==> (showCorrect == old(showCorrect) && showWrong == old(showWrong)
                              && advancePending == old(advancePending) && wrongTimers == old(wrongTimers))
    {
      submitted := InputShown() && Trim(userGuess) != [];
      if submitted {
        var _ := SubmitGuess();
      }
    }

    /** The 2000 ms timer after a correct answer: the guess is cleared, the
        reveal hidden, and the hunt moves to the next clue or, from the last
        clue, completes and calls onComplete. */
    method AdvanceTimerFires()
      requires Valid() && advancePending
      modifies this`showCorrect, this`userGuess, this`currentClueIndex, this`isComplete,
        this`completions, this`advancePending
      ensures Valid()
      ensures !showCorrect && !advancePending && userGuess == []
      ensures isComplete == (old(currentClueIndex) == |Clues| - 1)
      ensures currentClueIndex == if isComplete then old(currentClueIndex) else old(currentClueIndex) + 1
      ensures completions == old(completions) + (if isComplete then 1 else 0)
    {
      showCorrect := false;
      advancePending := false;
      userGuess := [];
      if currentClueIndex < |Clues| - 1 {
        currentClueIndex := currentClueIndex + 1;
      } else {
        isComplete := true;
        completions := completions + 1;
      }
    }

    /** The 1500 ms timer after a wrong answer hides the hint. */
    method WrongTimerFires()
      requires Valid() && wrongTimers > 0
      modifies this`showWrong, this`wrongTimers
      ensures Valid()
      ensures !showWrong && wrongTimers == old(wrongTimers) - 1
    {
      showWrong := false;
      wrongTimers := wrongTimers - 1;
    }
  }

  /** One accepted guess per clue, taken from the worked examples above. */
  const Solutions: seq<string> := [" Salt Bread ", "matcha ", "lawandorder", "lillies", "manny pacquiao"]

  lemma SolutionsAccepted(i: nat)
    requires i < |Clues|
    ensures |Solutions| == |Clues| && IsCorrect(Solutions[i], Clues[i].answer)
  {
    if i == 0 {
      PaddedCase(Solutions[i], Clues[i].answer);
    } else if i == 1 {
      MatchaCase(Solutions[i], Clues[i].answer);
    } else if i == 2 {
      LawAndOrderCase(Solutions[i], Clues[i].answer);
    } else if i == 3 {
      ExactCase(Solutions[i], Clues[i].answer);
    } else {
      StoredCaseCase(Solutions[i], Clues[i].answer);
    }
  }

  /** Typing a wrong guess and pressing Enter: the hint shows, the clue stays,
      and the hint's timer hides it again. */
  method MissCurrentClue(h: Hunt, guess: string)
    requires h.Valid() && h.InputShown()
    requires !IsCorrect(guess, Clues[h.currentClueIndex].answer)
    modifies h
    ensures h.Valid() && h.InputShown()
    ensures h.currentClueIndex == old(h.currentClueIndex) && h.completions == old(h.completions)
  {
    h.Type(guess);
    var submitted := h.KeyDown("Enter");
    h.WrongTimerFires();
  }

  /** Answering one clue correctly by typing the guess and pressing Enter, then
      letting the reveal timer fire. */
  method SolveCurrentClue(h: Hunt, guess: string)
    requires h.Valid() && h.InputShown()
    requires IsCorrect(guess, Clues[h.currentClueIndex].answer)
    modifies h
    ensures h.Valid()
    ensures h.isComplete == (old(h.currentClueIndex) == |Clues| - 1)
    ensures !h.isComplete ==> h.currentClueIndex == old(h.currentClueIndex) + 1 && h.InputShown()
    ensures h.completions == old(h.completions) + (if h.isComplete then 1 else 0)
  {
    h.Type(guess);
    var submitted := h.KeyDown("Enter");
    h.AdvanceTimerFires();
  }

  /** A whole hunt: a wrong guess, then one accepted guess per clue. The hunt
      ends complete, on the last clue, having called onComplete once, and a
      further Enter or click submits nothing. */
  method PlayThrough() returns (complete: bool, index: nat, completions: nat, resubmitted: bool)
    ensures complete && index == |Clues| - 1 && completions == 1 && !resubmitted
  {
    var h := new Hunt();
    var wrong := "salt  bread";
    DoubledSpaceCase(wrong, Clues[0].answer);
    MissCurrentClue(h, wrong);
    var i := 0;
    while i < |Clues|
      invariant 0 <= i <= |Clues|
      invariant h.Valid()
      invariant i < |Clues| ==> h.currentClueIndex == i && h.InputShown() && h.completions == 0
      invariant i == |Clues| ==> h.isComplete && h.completions == 1
    {
      SolutionsAccepted(i);
      SolveCurrentClue(h, Solutions[i]);
      i := i + 1;
    }
    assert !h.InputShown();
    var again := h.KeyDown("Enter");
    var clicked := h.ClickCheck();
    complete, index, completions := h.isComplete, h.currentClueIndex, h.completions;
    resubmitted := again || clicked;
  }
}
