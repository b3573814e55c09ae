/**
 * The guessing-game score keeper (`class Game`): the player picks a colour, the wall is
 * knocked down, and the colour revealed is checked against the pick. The score is a
 * streak: one more for every correct answer, back to zero on a miss.
 */
module GameScore {
  import opened Wrappers

  /** The number of correct answers at the end of `answers`, since the last miss. */
  function Streak(answers: seq<bool>): nat
  {
    if answers == [] then 0
    else if answers[|answers| - 1] then Streak(answers[..|answers| - 1]) + 1
    else 0
  }

  /**
   * The streak is exactly the trailing run of correct answers: the last `Streak(answers)`
   * answers are correct and the one before them, if any, is a miss.
   */
  lemma {:induction false} StreakIsTrailingRun(answers: seq<bool>)
    ensures Streak(answers) <= |answers|
    ensures forall k :: |answers| - Streak(answers) <= k < |answers| ==> answers[k]
    ensures Streak(answers) < |answers| ==> !answers[|answers| - Streak(answers) - 1]
  {
    if answers != [] && answers[|answers| - 1] {
      var init := answers[..|answers| - 1];
      StreakIsTrailingRun(init);
      assert forall k :: 0 <= k < |init| ==> init[k] == answers[k];
    }
  }

  class Game {
    /** How many `.js-game__color` elements there are to click. */
    const colorCount: nat
    /** The colour index the player picked; `null` until the first pick. */
    var selectedColor: Option<nat>
    var score: nat
    /** Whether the guesser panel carries the `hidden` class. */
    var guesserHidden: bool
    /** `setTimeout(showGuesser, 1000)` callbacks scheduled and not yet run. */
    var pendingShows: nat
    /** Whether each `checkAnswer` so far was correct, oldest first. */
    ghost var answers: seq<bool>

    /** The score is the streak of correct answers since the last miss. */
    ghost predicate Valid()
      reads this
    {
      score == Streak(answers)
    }

    /** `new Game(wrap)`: no colour picked and a zero score. */
    constructor (colorCount: nat, guesserHidden: bool)
      ensures Valid()
      ensures this.colorCount == colorCount && this.guesserHidden == guesserHidden
      ensures selectedColor == None && score == 0 && pendingShows == 0 && answers == []
    {
      this.colorCount := colorCount;
      this.guesserHidden := guesserHidden;
      selectedColor := None;
      score := 0;
      pendingShows := 0;
      answers := [];
    }

    /**
     * The click handler of colour element `index`: remembers the pick and hides the guesser;
     * the `selectColor` event it then dispatches is handled by the scene.
     */
    method ClickColor(index: nat)
      requires index < colorCount
      modifies this
      ensures selectedColor == Some(index) && guesserHidden
      ensures score == old(score) && pendingShows == old(pendingShows) && answers == old(answers)
    {
      selectedColor := Some(index);
      guesserHidden := true;
    }

    /** Scores the revealed `color` against the pick and schedules the guesser to reappear. */
    method CheckAnswer(color: nat)
      requires Valid()
      modifies this
      ensures Valid()
      ensures answers == old(answers) + [old(selectedColor) == Some(color)]
      ensures score == if old(selectedColor) == Some(color) then old(score) + 1 else 0
      ensures pendingShows == old(pendingShows) + 1
      ensures selectedColor == old(selectedColor) && guesserHidden == old(guesserHidden)
    {
      var correct := selectedColor == Some(color);
      if correct {
        IncreaseScore();
      } else {
        ResetScore();
      }
      answers := answers + [correct];
      pendingShows := pendingShows + 1;
    }

    method IncreaseScore()
      modifies this`score
      ensures score == old(score) + 1
    {
      score := score + 1;
    }

    method ResetScore()
      modifies this`score
      ensures score == 0
    {
      score := 0;
    }

    /** One scheduled `showGuesser` callback runs: the guesser panel is shown again. */
    method ShowGuesserElapsed()
      requires pendingShows > 0
      modifies this`guesserHidden, this`pendingShows
      ensures !guesserHidden && pendingShows == old(pendingShows) - 1
    {
      guesserHidden := false;
      pendingShows := pendingShows - 1;
    }
  }

  /** `initGame`: a game exactly when the page has a `.js-game` wrapper. */
  method InitGame(hasWrap: bool, colorCount: nat, guesserHidden: bool) returns (g: Game?)
    ensures (g == null) == !hasWrap
    ensures g != null ==> fresh(g) && g.Valid() && g.colorCount == colorCount
    ensures g != null ==> g.score == 0 && g.selectedColor == None && g.answers == []
    ensures g != null ==> g.pendingShows == 0 && g.guesserHidden == guesserHidden
  {
    if !hasWrap {
      return null;
    }
    g := new Game(colorCount, guesserHidden);
  }
}
