/**
 * The guess-the-number page (src/pages/Index.tsx): a secret number in [1, 100],
 * an attempt counter, a game-over flag, a feedback message and a best score
 * that survives sessions, with 999 standing for "no record yet".
 *
 * The session is given twice: as a value (`Session`) with pure transition
 * functions that carry the properties, and as the class `Game` whose fields the
 * page's handlers update one setter at a time; each method of `Game` is proved
 * to move its fields exactly as the corresponding function does.
 */
module GuessGame {
  import opened Wrappers

  /** Smallest and largest secret number, and the accepted range of a guess. */
  const Lo: int := 1
  const Hi: int := 100
  /** Best score assumed when nothing is stored; shown as "-". */
  const Unset: int := 999

  /** The feedback line under the counters. */
  datatype Message =
    | Prompt               // "guess a number from 1 to 100"
    | Guessed(target: int) // congratulations, naming the secret number
    | GoHigher             // the secret number is larger
    | GoLower              // the secret number is smaller

  /** The notification a submitted guess emits. */
  datatype Toast =
    | InvalidGuess            // not a number, or outside [1, 100]
    | NewRecord(attempts: int) // won with fewer attempts than the best score
    | Solved(attempts: int)    // won without beating the best score
    | TryHigher
    | TryLower
  {
    predicate IsWin() { NewRecord? || Solved? }
  }

  /** The page's state: secret number, pending input text, counters and flags. */
  datatype Session = Session(
    target: int,
    guess: string,
    attempts: int,
    message: Message,
    gameOver: bool,
    bestScore: int)

  /** A parsed guess is accepted when it is a number in [Lo, Hi]. */
  predicate IsValidGuess(parsed: Option<int>) {
    parsed.Some? && Lo <= parsed.value <= Hi
  }

  /** The best score at page load: what storage holds, else the sentinel. */
  function InitialBestScore(stored: Option<int>): (b: int)
    ensures stored.None? ==> b == Unset
    ensures stored.Some? ==> b == stored.value
  {
    match stored
    case None => Unset
    case Some(n) => n
  }

  /** The record counter as displayed: nothing ("-") for the sentinel. */
  function ShownBest(bestScore: int): (shown: Option<int>)
    ensures shown.None? <==> bestScore == Unset
    ensures shown.Some? ==> shown.value == bestScore
  {
    if bestScore == Unset then None else Some(bestScore)
  }

  /** A fresh player, or one whose stored record is the sentinel, sees no record. */
  lemma NoRecordShownIff(stored: Option<int>)
    ensures ShownBest(InitialBestScore(stored)).None? <==> stored.None? || stored == Some(Unset)
  {
  }

  /** The secret number drawn from a random `r` in [0, 1): floor(r * 100) + 1. */
  function DrawTarget(r: real): (t: int)
    requires 0.0 <= r < 1.0
    ensures Lo <= t <= Hi
  {
    (r * 100.0).Floor + 1
  }

  /**
   * Each number in [Lo, Hi] is drawn by exactly the draws in an interval of
   * width 1/100, so a uniform draw gives a uniform secret number.
   */
  lemma DrawTargetIff(r: real, t: int)
    requires 0.0 <= r < 1.0
    ensures DrawTarget(r) == t <==> (t - 1) as real / 100.0 <= r < t as real / 100.0
  {
    var f := (r * 100.0).Floor;
    assert f as real <= r * 100.0 < f as real + 1.0;
    if (t - 1) as real / 100.0 <= r < t as real / 100.0 {
      assert (t - 1) as real <= r * 100.0 < t as real;
      assert f == t - 1;
    }
  }

  /** The best score after a win in `n` attempts: replaced only by a strictly lower count. */
  function NextBest(best: int, n: int): (b: int)
    ensures b <= best && b <= n
    ensures b == best || b == n
    ensures b != best <==> n < best
  {
    if n < best then n else best
  }

  /** A new game: fresh secret number, cleared input and counters; the best score is kept. */
  function NewGame(s: Session, r: real): (s': Session)
    requires 0.0 <= r < 1.0
    ensures Lo <= s'.target <= Hi && s'.target == DrawTarget(r)
    ensures s'.guess == "" && s'.attempts == 0 && s'.message == Prompt && !s'.gameOver
    ensures s'.bestScore == s.bestScore
  {
    Session(DrawTarget(r), "", 0, Prompt, false, s.bestScore)
  }

  /**
   * Submitting a parsed guess. An invalid one changes nothing. A valid one is
   * counted and clears the input; it is compared with the secret number; a
   * win ends the game and lowers the best score when the count beats it.
   */
  function Submit(s: Session, parsed: Option<int>): (r: (Session, Toast))
    ensures !IsValidGuess(parsed) ==> r == (s, InvalidGuess)
    ensures IsValidGuess(parsed) ==>
      r.0.attempts == s.attempts + 1 && r.0.guess == "" && r.0.target == s.target
    ensures IsValidGuess(parsed) && parsed.value == s.target ==>
      r.0.gameOver && r.0.message == Guessed(s.target) &&
      r.0.bestScore == NextBest(s.bestScore, s.attempts + 1) &&
      r.1 == (if s.attempts + 1 < s.bestScore then NewRecord(s.attempts + 1) else Solved(s.attempts + 1))
    ensures IsValidGuess(parsed) && parsed.value < s.target ==>
      r.0.message == GoHigher && r.1 == TryHigher
    ensures IsValidGuess(parsed) && parsed.value > s.target ==>
      r.0.message == GoLower && r.1 == TryLower
    ensures IsValidGuess(parsed) && parsed.value != s.target ==>
      r.0.gameOver == s.gameOver && r.0.bestScore == s.bestScore
    ensures r.0.bestScore <= s.bestScore
    ensures r.0.bestScore != s.bestScore <==> r.1 == NewRecord(r.0.bestScore)
  {
    if !IsValidGuess(parsed) then
      (s, InvalidGuess)
    else
      var g := parsed.value;
      var n := s.attempts + 1;
      if g == s.target then
        var toast := if n < s.bestScore then NewRecord(n) else Solved(n);
        (s.(attempts := n, message := Guessed(s.target), gameOver := true,
            bestScore := NextBest(s.bestScore, n), guess := ""), toast)
      else if g < s.target then
        (s.(attempts := n, message := GoHigher, guess := ""), TryHigher)
      else
        (s.(attempts := n, message := GoLower, guess := ""), TryLower)
  }

  /**
   * The sentinel is an ordinary number to the comparison: with no record
   * stored, a win in 999 or more attempts is not recorded.
   */
  lemma SentinelBlocksLongWins(s: Session, g: int)
    requires s.bestScore == Unset && s.attempts + 1 >= Unset
    requires g == s.target && Lo <= g <= Hi
    ensures Submit(s, Some(g)).0.bestScore == Unset
    ensures Submit(s, Some(g)).1 == Solved(s.attempts + 1)
    ensures ShownBest(Submit(s, Some(g)).0.bestScore).None?
  {
  }

  /** What the page guarantees about every reachable session. */
  ghost predicate Inv(s: Session) {
    && Lo <= s.target <= Hi
    && s.attempts >= 0
    && (s.gameOver <==> s.message.Guessed?)
    && (s.gameOver ==> s.message.target == s.target && s.attempts >= 1 && s.bestScore <= s.attempts)
  }

  lemma NewGameEstablishesInv(s: Session, r: real)
    requires 0.0 <= r < 1.0
    ensures Inv(NewGame(s, r))
  {
  }

  /** A guess submitted while the game runs keeps the invariant. */
  lemma SubmitPreservesInv(s: Session, parsed: Option<int>)
    requires Inv(s) && !s.gameOver
    ensures Inv(Submit(s, parsed).0)
  {
  }

  /** The user's actions on the page. */
  datatype Event =
    | Type(text: string)      // edits the guess input
    | PressKey(enter: bool)   // a key pressed in the guess input
    | ClickCheck              // the "check" button
    | ClickNewGame(draw: real) // the "new game" button, with the random draw it triggers

  /** Draws that Math.random can return. */
  predicate DrawsInRange(evs: seq<Event>) {
    forall i :: 0 <= i < |evs| ==> (evs[i].ClickNewGame? ==> 0.0 <= evs[i].draw < 1.0)
  }

  lemma DrawsInRangeTail(evs: seq<Event>)
    requires evs != [] && DrawsInRange(evs)
    ensures DrawsInRange(evs[1..])
  {
    forall i | 0 <= i < |evs[1..]| ensures evs[1..][i].ClickNewGame? ==> 0.0 <= evs[1..][i].draw < 1.0 {
      assert evs[1..][i] == evs[i + 1];
    }
  }

  /**
   * One action. The input and the check button exist only while the game runs,
   * and the new-game button only once it is over; Enter submits only while the
   * game runs. An action on an element that is not shown changes nothing.
   */
  function Step(s: Session, e: Event, parse: string -> Option<int>): (r: (Session, Option<Toast>))
    requires e.ClickNewGame? ==> 0.0 <= e.draw < 1.0
    ensures s.gameOver && !e.ClickNewGame? ==> r == (s, None)
    ensures !s.gameOver && (e.ClickCheck? || e == PressKey(true)) ==>
      r.0 == Submit(s, parse(s.guess)).0 && r.1 == Some(Submit(s, parse(s.guess)).1)
    ensures !s.gameOver && e.Type? ==> r == (s.(guess := e.text), None)
    ensures e == PressKey(false) ==> r == (s, None)
    ensures e.ClickNewGame? ==> r == (if s.gameOver then NewGame(s, e.draw) else s, None)
    ensures r.1.None? ==> r.0.bestScore == s.bestScore && r.0.attempts in {0, s.attempts}
    ensures r.1.Some? ==> r.0 == Submit(s, parse(s.guess)).0 && r.1.value == Submit(s, parse(s.guess)).1
  {
    match e
    case Type(text) =>
      if s.gameOver then (s, None) else (s.(guess := text), None)
    case PressKey(enter) =>
      if enter && !s.gameOver then
        var (s', t) := Submit(s, parse(s.guess)); (s', Some(t))
      else (s, None)
    case ClickCheck =>
      if s.gameOver then (s, None)
      else var (s', t) := Submit(s, parse(s.guess)); (s', Some(t))
    case ClickNewGame(r) =>
      if s.gameOver then (NewGame(s, r), None) else (s, None)
  }

  /** Every action keeps the invariant. */
  lemma StepPreservesInv(s: Session, e: Event, parse: string -> Option<int>)
    requires e.ClickNewGame? ==> 0.0 <= e.draw < 1.0
    requires Inv(s)
    ensures Inv(Step(s, e, parse).0)
  {
    match e
    case ClickNewGame(r) =>
      if s.gameOver { NewGameEstablishesInv(s, r); }
    case _ =>
      if !s.gameOver { SubmitPreservesInv(s, parse(s.guess)); }
  }

  /** A sequence of actions: the final session and the notifications emitted, in order. */
  function Run(s: Session, evs: seq<Event>, parse: string -> Option<int>): (Session, seq<Toast>)
    requires DrawsInRange(evs)
    decreases |evs|
  {
    if evs == [] then (s, [])
    else
      var (s1, t) := Step(s, evs[0], parse);
      DrawsInRangeTail(evs);
      var (s2, ts) := Run(s1, evs[1..], parse);
      (s2, (if t.Some? then [t.value] else []) + ts)
  }

  /** Every session reachable from one that satisfies the invariant satisfies it. */
  lemma {:induction false} RunPreservesInv(s: Session, evs: seq<Event>, parse: string -> Option<int>)
    requires DrawsInRange(evs)
    requires Inv(s)
    ensures Inv(Run(s, evs, parse).0)
    decreases |evs|
  {
    if evs != [] {
      StepPreservesInv(s, evs[0], parse);
      DrawsInRangeTail(evs);
      RunPreservesInv(Step(s, evs[0], parse).0, evs[1..], parse);
    }
  }

  /**
   * The best score is the fewest attempts of any win: after any actions it is
   * at most the initial best score and at most every winning count announced,
   * and when it changed, a new-record notification announced its value.
   */
  lemma {:induction false} RunBestScore(s: Session, evs: seq<Event>, parse: string -> Option<int>)
    requires DrawsInRange(evs)
    ensures Run(s, evs, parse).0.bestScore <= s.bestScore
    ensures forall t :: t in Run(s, evs, parse).1 && t.IsWin() ==> Run(s, evs, parse).0.bestScore <= t.attempts
    ensures Run(s, evs, parse).0.bestScore != s.bestScore ==>
      NewRecord(Run(s, evs, parse).0.bestScore) in Run(s, evs, parse).1
    decreases |evs|
  {
    if evs != [] {
      var (s1, t) := Step(s, evs[0], parse);
      DrawsInRangeTail(evs);
      RunBestScore(s1, evs[1..], parse);
      var (s2, ts) := Run(s1, evs[1..], parse);
      var head := if t.Some? then [t.value] else [];
      assert Run(s, evs, parse) == (s2, head + ts);
      if t.Some? {
        var sub := Submit(s, parse(s.guess));
        assert s1 == sub.0 && t.value == sub.1;
        assert t.value.IsWin() ==> s1.bestScore <= t.value.attempts;
      }
      forall u | u in head + ts && u.IsWin() ensures s2.bestScore <= u.attempts {
        if u in head { assert u == t.value; }
      }
    }
  }

  /** The session of the "target 50" walk-through: a low guess, rejected input, then the right one. */
  lemma WalkThroughTarget50()
    ensures var s0 := Session(50, "", 0, Prompt, false, Unset);
      var (s1, t1) := Submit(s0, Some(30));
      && s1.message == GoHigher && t1 == TryHigher && !s1.gameOver && s1.attempts == 1
      && Submit(s1, None) == (s1, InvalidGuess)
      && Submit(s1, Some(150)) == (s1, InvalidGuess)
      && Submit(s1, Some(0)) == (s1, InvalidGuess)
      && var (s2, t2) := Submit(s1, Some(50));
      s2.gameOver && s2.message == Guessed(50) && t2 == NewRecord(2) && s2.bestScore == 2
  {
  }

  /** Records across sessions: wins in 7, then 10, then 3 attempts leave 7, 7, 3. */
  lemma RecordsAcrossSessions(target: int)
    requires Lo <= target <= Hi
    ensures var won7 := Submit(Session(target, "", 6, GoLower, false, Unset), Some(target));
      && won7 == (Session(target, "", 7, Guessed(target), true, 7), NewRecord(7))
      && var won10 := Submit(Session(target, "", 9, GoLower, false, won7.0.bestScore), Some(target));
      && won10.0.bestScore == 7 && won10.1 == Solved(10)
      && var won3 := Submit(Session(target, "", 2, GoLower, false, won10.0.bestScore), Some(target));
      won3.0.bestScore == 3 && won3.1 == NewRecord(3)
  {
  }

  /**
   * The page's state as the handlers keep it. `parse` stands for parseInt,
   * the text-to-number conversion the page relies on; None is "not a number".
   */
  class Game {
    const parse: string -> Option<int>
    var target: int
    var guess: string
    var attempts: int
    var message: Message
    var gameOver: bool
    var bestScore: int

    function State(): Session
      reads this
    {
      Session(target, guess, attempts, message, gameOver, bestScore)
    }

    ghost predicate Valid()
      reads this
    {
      Inv(State())
    }

    /** Page load: initial hook values, the best score read from storage, then a first new game. */
    constructor (stored: Option<int>, draw: real, parseInt: string -> Option<int>)
      requires 0.0 <= draw < 1.0
      ensures Valid() && parse == parseInt
      ensures State() == NewGame(Session(0, "", 0, Prompt, false, InitialBestScore(stored)), draw)
    {
      parse := parseInt;
      target := 0;
      guess := "";
      attempts := 0;
      message := Prompt;
      gameOver := false;
      bestScore := InitialBestScore(stored);
      new;
      StartNewGame(draw);
    }

    method StartNewGame(draw: real)
      requires 0.0 <= draw < 1.0
      modifies this
      ensures Valid()
      ensures State() == NewGame(old(State()), draw)
    {
      target := DrawTarget(draw);
      guess := "";
      attempts := 0;
      message := Prompt;
      gameOver := false;
    }

    /** The input's change handler. */
    method SetGuess(text: string)
      requires Valid()
      modifies this
      ensures Valid()
      ensures State() == old(State()).(guess := text)
      ensures !old(gameOver) ==> State() == Step(old(State()), Type(text), parse).0
    {
      guess := text;
    }

    /** The check handler; reachable only while the game runs. */
    method HandleGuess() returns (toast: Toast)
      requires Valid() && !gameOver
      modifies this
      ensures Valid()
      ensures (State(), toast) == Submit(old(State()), parse(old(guess)))
    {
      var parsed := parse(guess);
      if !IsValidGuess(parsed) {
        toast := InvalidGuess;
        return;
      }
      var newAttempts := attempts + 1;
      attempts := newAttempts;
      if parsed.value == target {
        message := Guessed(target);
        gameOver := true;
        if newAttempts < bestScore {
          bestScore := newAttempts;
          toast := NewRecord(newAttempts);
        } else {
          toast := Solved(newAttempts);
        }
      } else if parsed.value < target {
        message := GoHigher;
        toast := TryHigher;
      } else {
        message := GoLower;
        toast := TryLower;
      }
      guess := "";
      SubmitPreservesInv(old(State()), parsed);
    }

    /** The key handler of the input: Enter submits while the game runs, anything else is ignored. */
    method HandleKeyPress(enter: bool) returns (toast: Option<Toast>)
      requires Valid()
      modifies this
      ensures Valid()
      ensures (State(), toast) == Step(old(State()), PressKey(enter), parse)
    {
      if enter && !gameOver {
        var t := HandleGuess();
        toast := Some(t);
      } else {
        toast := None;
      }
    }
  }
}
