/**
 * A revision of the game (`game13.py`) with denser levels. Every level opens with the craft
 * gliding in from the left edge. The riddle is picked from a pool that never shrinks, a wrong
 * answer is only counted, and a Hint button reveals the answer's first letter. The session keeps
 * its game-over flag across levels and, once won, shows the final scoreboard while a riddle is
 * still awaited.
 *
 * `State` is the logical state of `Game`. The functions below are its transitions, and `Inv` is
 * what they keep. `Game` is the class itself: each method changes its fields exactly as the
 * matching function says.
 */
module Game13 {
  import opened Basics
  import opened Arena
  import opened Stars
  import opened Hazards
  import opened Riddles
  import opened Session

  /** The levels; a level's rocks are its `obstacles` entry plus two per level index. */
  const LEVELS: seq<Level> := [
    Level("Pink City", 10, 15, 8),
    Level("Blue Space", 12, 15, 9),
    Level("Ocean Block", 15, 20, 10)]

  const RIDDLES: seq<Riddle> := [
    Riddle("I speak without a mouth and hear without ears. What am I?", "echo"),
    Riddle("I\U{2019}m tall when I\U{2019}m young, and short when I\U{2019}m old. What am I?", "candle"),
    Riddle("What has keys but can\U{2019}t open locks?", "piano"),
    Riddle("The more of me you take, the more you leave behind. What am I?", "footsteps"),
    Riddle("I have cities but no houses, forests but no trees, and water but no fish. What am I?", "map"),
    Riddle("What can run but never walks, has a mouth but never talks?", "river"),
    Riddle("I am always hungry and will die if not fed, but whatever I touch will soon turn red. What am I?", "fire"),
    Riddle("I can fly without wings, cry without eyes. What am I?", "cloud"),
    Riddle("The more you take away from me, the bigger I get. What am I?", "hole")]

  /** Where `UFO()` starts and where `reset_level` puts the craft back: the left edge, mid-height. */
  const ENTRY: Point := Point(0, HEIGHT / 2)
  /** The Hint button `draw` places beside the riddle. */
  const HINT_RECT: Rect := Rect(WIDTH / 2 + 200, HEIGHT / 2 + 50, 100, 40)
  /** How far the craft glides per frame of a level's intro. */
  const INTRO_STEP: int := 10

  /** The rocks `reset_level` creates for a level. */
  function Rocks(levelIndex: nat): nat
    requires levelIndex < |LEVELS|
  {
    LEVELS[levelIndex].rocks + 2 * levelIndex
  }

  datatype State = State(
    levelIndex: nat,
    x: int,
    y: int,
    crashes: nat,
    obstacles: seq<Obstacle>,
    stars: seq<Star>,
    score: nat,
    gameOver: bool,
    levelComplete: bool,
    awaitingRiddle: bool,
    riddleAnswer: string,
    currentRiddle: Option<Riddle>,
    showHint: bool,
    hintShown: bool,
    showLevelIntro: bool,
    remainingRiddles: seq<Riddle>,
    levelScores: seq<nat>,
    wrongAttempts: nat)

  /**
   * The random draws of one `reset_level` for each level: its obstacles and its stars around the
   * entry point. A new session's five stars are those of the first level's draw.
   */
  predicate DrawsFit(rng: seq<LevelDraw>)
  {
    |rng| == |LEVELS| &&
    forall i :: 0 <= i < |rng| ==>
      DrawFits(rng[i], Rocks(i), LEVELS[i].blackholes, StarCount(i), ENTRY)
  }

  /**
   * The ledger: one entry per correct answer, each a multiple of ten, and those of the three
   * levels at least the level's threshold.
   */
  predicate LedgerOk(levelIndex: nat, levelScores: seq<nat>, score: nat)
  {
    && |levelScores| == levelIndex
    && (forall k :: 0 <= k < |levelScores| ==>
          levelScores[k] % STAR_POINTS == 0 && (k < |LEVELS| ==> levelScores[k] >= Threshold(LEVELS[k])))
    && score % STAR_POINTS == 0
  }

  /**
   * Past the last level the game is over, the final scoreboard is shown and a riddle is still
   * awaited. The intro runs only on a real level with the gate closed, the craft on its way from
   * the left edge to the middle.
   */
  predicate ProgressOk(levelIndex: nat, gameOver: bool, awaitingRiddle: bool, showLevelIntro: bool, x: int)
  {
    && (levelIndex >= |LEVELS| ==> gameOver && awaitingRiddle)
    && (showLevelIntro ==>
          levelIndex < |LEVELS| && !awaitingRiddle && 0 <= x < WIDTH / 2 && x % INTRO_STEP == 0)
  }

  /**
   * The gate is open once the threshold is met, with a riddle from the pool pending and the Hint
   * button offered; the hint is only revealed while the button is offered.
   */
  predicate GateOk(levelIndex: nat, score: nat, levelComplete: bool, awaitingRiddle: bool,
    currentRiddle: Option<Riddle>, remainingRiddles: seq<Riddle>, showHint: bool, hintShown: bool)
  {
    && levelComplete == awaitingRiddle
    && currentRiddle.Some? == awaitingRiddle
    && showHint == awaitingRiddle
    && (hintShown ==> showHint)
    && (awaitingRiddle && levelIndex < |LEVELS| ==> score >= Threshold(LEVELS[levelIndex]))
    && (currentRiddle.Some? ==> currentRiddle.value in remainingRiddles)
  }

  /** Every flagged obstacle was counted as a crash. */
  predicate CrashesOk(crashes: nat, obstacles: seq<Obstacle>)
  {
    HitCount(obstacles) <= crashes
  }

  /** The stars on screen: as many as the level places, all inside the star field. */
  predicate StarsOk(levelIndex: nat, stars: seq<Star>)
  {
    && (levelIndex < |LEVELS| ==> |stars| == StarCount(levelIndex))
    && AllInField(stars)
  }

  /** What every state the game reaches satisfies; the pool is always the full list of riddles. */
  ghost predicate Inv(s: State)
  {
    && LedgerOk(s.levelIndex, s.levelScores, s.score)
    && ProgressOk(s.levelIndex, s.gameOver, s.awaitingRiddle, s.showLevelIntro, s.x)
    && GateOk(s.levelIndex, s.score, s.levelComplete, s.awaitingRiddle, s.currentRiddle,
         s.remainingRiddles, s.showHint, s.hintShown)
    && s.remainingRiddles == RIDDLES
    && CrashesOk(s.crashes, s.obstacles)
    && StarsOk(s.levelIndex, s.stars)
  }

  /**
   * `Game.__init__`: a new session at the first level, with no ledger, the full riddle pool, five
   * stars, no obstacles, and the intro starting from the left edge.
   */
  function Initial(rng: seq<LevelDraw>): (s: State)
    requires DrawsFit(rng)
    ensures s.levelIndex == 0 && s.levelScores == [] && s.score == 0 && s.crashes == 0
    ensures s.obstacles == [] && StarsPlaced(s.stars, StarCount(0), ENTRY)
    ensures s.remainingRiddles == RIDDLES && s.currentRiddle.None?
    ensures !s.gameOver && !s.awaitingRiddle && !s.levelComplete && s.wrongAttempts == 0
    ensures !s.showHint && !s.hintShown && s.showLevelIntro && Point(s.x, s.y) == ENTRY
  {
    State(
      levelIndex := 0, x := ENTRY.x, y := ENTRY.y, crashes := 0, obstacles := [],
      stars := rng[0].stars, score := 0, gameOver := false, levelComplete := false,
      awaitingRiddle := false, riddleAnswer := "", currentRiddle := None, showHint := false,
      hintShown := false, showLevelIntro := true, remainingRiddles := RIDDLES, levelScores := [],
      wrongAttempts := 0)
  }

  /** A new session satisfies the invariant. */
  lemma FreshGame(rng: seq<LevelDraw>)
    requires DrawsFit(rng)
    ensures Inv(Initial(rng))
  {
  }

  /** The gate closed, no riddle pending, no answer typed, no hint, no misses; game over stays. */
  function Cleared(s: State): State
  {
    s.(awaitingRiddle := false, levelComplete := false, riddleAnswer := "", currentRiddle := None,
       showHint := false, hintShown := false, wrongAttempts := 0)
  }

  /** The current level's field is laid out and its intro starts from the left edge. */
  function Staged(s: State, rng: seq<LevelDraw>): State
    requires DrawsFit(rng) && s.levelIndex < |LEVELS|
  {
    s.(x := ENTRY.x, y := ENTRY.y, obstacles := rng[s.levelIndex].hazards,
       stars := rng[s.levelIndex].stars, showLevelIntro := true)
  }

  /**
   * `Game.reset_level`: rebuild the current level. It keeps the energy, the crashes, the ledger,
   * the pool and the game-over flag.
   */
  function LevelReset(s: State, rng: seq<LevelDraw>): (r: State)
    requires DrawsFit(rng) && s.levelIndex < |LEVELS|
    ensures r.levelIndex == s.levelIndex
    ensures LevelHazards(r.obstacles, Rocks(r.levelIndex), LEVELS[r.levelIndex].blackholes)
    ensures StarsPlaced(r.stars, StarCount(r.levelIndex), ENTRY)
    ensures Point(r.x, r.y) == ENTRY && r.showLevelIntro
    ensures !r.awaitingRiddle && !r.levelComplete && r.currentRiddle.None? && r.riddleAnswer == []
    ensures !r.showHint && !r.hintShown && r.wrongAttempts == 0
    ensures r.gameOver == s.gameOver && r.score == s.score && r.crashes == s.crashes
    ensures r.levelScores == s.levelScores && r.remainingRiddles == s.remainingRiddles
  {
    Staged(Cleared(s), rng)
  }

  /** Whether Enter passes the riddle: one is pending and the typed answer, lower-cased, is its answer. */
  predicate Matches(s: State)
  {
    s.currentRiddle.Some? && Lower(s.riddleAnswer) == s.currentRiddle.value.answer
  }

  /** `Game.next_level`: bank, advance, and either end the game or enter the next level afresh. */
  function Advanced(s: State, rng: seq<LevelDraw>): State
    requires DrawsFit(rng)
  {
    var advanced := s.(levelScores := s.levelScores + [s.score], levelIndex := s.levelIndex + 1);
    if advanced.levelIndex >= |LEVELS| then advanced.(gameOver := true)
    else LevelReset(advanced.(score := 0, crashes := 0), rng)
  }

  /** Enter while a riddle is awaited; a wrong answer is only counted. */
  function AnswerChecked(s: State, rng: seq<LevelDraw>): State
    requires DrawsFit(rng)
  {
    if Matches(s) then Advanced(s, rng) else s.(wrongAttempts := s.wrongAttempts + 1)
  }

  /** The KEYDOWN branch of `Game.handle_events`. */
  function KeyPressed(s: State, key: Key, unicode: string, rng: seq<LevelDraw>): State
    requires DrawsFit(rng)
  {
    if s.awaitingRiddle then
      match key
      case Return => AnswerChecked(s, rng)
      case Backspace => s.(riddleAnswer := DropLast(s.riddleAnswer))
      case _ => s.(riddleAnswer := s.riddleAnswer + unicode)
    else if s.gameOver && key == KeyR then Initial(rng)
    else s
  }

  /** The MOUSEBUTTONDOWN branch of `Game.handle_events`: a click on the offered Hint button. */
  function Clicked(s: State, pos: Point): State
  {
    if s.showHint && Collides(HINT_RECT, pos) then s.(hintShown := true) else s
  }

  /** One event of `Game.handle_events`: how the loop goes on, and the state after the event. */
  function OnEvent(s: State, e: Event, rng: seq<LevelDraw>): (Flow, State)
    requires DrawsFit(rng)
  {
    match e
    case Quit => (Exited, s)
    case KeyDown(key, unicode) => (Running, KeyPressed(s, key, unicode, rng))
    case MouseDown(pos) => (Running, Clicked(s, pos))
  }

  /** Every reset a run of events may make has draws that fit the levels. */
  predicate AllDrawsFit(rngs: seq<seq<LevelDraw>>)
  {
    forall k :: 0 <= k < |rngs| ==> DrawsFit(rngs[k])
  }

  /** `Game.handle_events` over the events of one frame from the `i`-th on. */
  function Handled(s: State, events: seq<Event>, rngs: seq<seq<LevelDraw>>, i: nat): (Flow, State)
    requires |rngs| == |events| && AllDrawsFit(rngs) && i <= |events|
    decreases |events| - i
  {
    if i == |events| then (Running, s)
    else
      var (flow, t) := OnEvent(s, events[i], rngs[i]);
      if flow != Running then (flow, t) else Handled(t, events, rngs, i + 1)
  }

  /** Whether a frame of `Game.update` moves the craft and plays the level. */
  predicate Playing(s: State)
  {
    !s.gameOver && !s.levelComplete && !s.awaitingRiddle && !s.showLevelIntro
  }

  /** A frame's inputs fit the state they are played on; this revision spawns no obstacles. */
  predicate FrameFits(s: State, f: FrameInput)
  {
    Playing(s) ==>
      && f.spawn.None?
      && FrameFitsField(f, s.obstacles, s.stars, Point(s.x, s.y))
      && f.riddlePick < |s.remainingRiddles|
  }

  /** The collision loop: obstacles touched for the first time are flagged and counted as crashes. */
  function Crashed(s: State, hits: seq<bool>): State
    requires |hits| == |s.obstacles|
  {
    var crashes := s.crashes + NewHits(s.obstacles, hits);
    s.(obstacles := MarkHits(s.obstacles, hits), crashes := crashes,
      gameOver := s.gameOver || (crashes > s.crashes && crashes >= MAX_CRASHES))
  }

  /** The star loop: captured stars score and are replaced by new ones at the end of the list. */
  function Collected(s: State, hits: seq<bool>, replacements: seq<Star>): State
    requires |hits| == |s.stars| == |replacements|
  {
    s.(stars := Kept(s.stars, hits) + Spawned(replacements, hits),
      score := s.score + STAR_POINTS * Captures(hits))
  }

  /** The flight part of a playing frame: move, crash and capture. */
  function Flown(s: State, f: FrameInput): State
    requires |f.hazardHits| == |s.obstacles| && |f.starHits| == |s.stars| == |f.replacements|
  {
    var at := Moved(Point(s.x, s.y), f.keys);
    Collected(Crashed(s.(x := at.x, y := at.y), f.hazardHits), f.starHits, f.replacements)
  }

  /** The level is complete: the gate opens with an empty answer. */
  function Completed(s: State): State
  {
    s.(levelComplete := true, awaitingRiddle := true, riddleAnswer := "")
  }

  /** The Hint button is offered, its hint not yet revealed. */
  function HintOffered(s: State): State
  {
    s.(showHint := true, hintShown := false)
  }

  /** The riddle gate opens on `random.choice` of the pool, which keeps the riddle. */
  function GateOpened(s: State, pick: nat): State
    requires pick < |s.remainingRiddles|
  {
    HintOffered(Completed(s)).(currentRiddle := Some(s.remainingRiddles[pick]))
  }

  /** A playing frame: the flight, then the riddle gate opens once the level's threshold is met. */
  function Played(s: State, f: FrameInput): State
    requires Playing(s) && s.levelIndex < |LEVELS| && FrameFits(s, f)
  {
    var t := Flown(s, f);
    if t.score >= Threshold(LEVELS[t.levelIndex]) then GateOpened(t, f.riddlePick) else t
  }

  /** `Game.update`: nothing while the game is over, the gate is open or the intro runs. */
  function Updated(s: State, f: FrameInput): State
    requires Inv(s) && FrameFits(s, f)
  {
    if !Playing(s) then s else Played(s, f)
  }

  /** A frame of the intro: the craft glides right until it reaches the middle, which ends the intro. */
  function IntroStep(s: State): State
  {
    var t := if s.x < WIDTH / 2 then s.(x := s.x + INTRO_STEP) else s;
    if t.x >= WIDTH / 2 then t.(showLevelIntro := false) else t
  }

  /**
   * Whether `Game.draw` fails on the final scoreboard: it names the level of every ledger entry,
   * and an entry past the last level has none, so `levels[idx]` raises an `IndexError`.
   */
  predicate ScoreboardFails(s: State)
  {
    s.gameOver && s.levelIndex >= |LEVELS| && |s.levelScores| > |LEVELS|
  }

  /** What `Game.draw` changes in the state: after the final scoreboard, only the intro moves the craft. */
  function Painted(s: State): State
  {
    if s.gameOver && s.levelIndex >= |LEVELS| then s
    else if s.levelIndex < |LEVELS| && s.showLevelIntro then IntroStep(s)
    else s
  }

  /**
   * One pass of the main loop: the frame's events, then `update`, then `draw`. The frame is
   * finished even when an event was QUIT; the loop ends afterwards.
   */
  function Tick(s: State, events: seq<Event>, rngs: seq<seq<LevelDraw>>, f: FrameInput): (Flow, State)
    requires Inv(s) && |rngs| == |events| && AllDrawsFit(rngs)
    requires FrameFits(Handled(s, events, rngs, 0).1, f)
  {
    var (flow, t) := Handled(s, events, rngs, 0);
    HandledKeepsInv(s, events, rngs, 0);
    var u := Updated(t, f);
    if ScoreboardFails(u) then (Raised, u) else (flow, Painted(u))
  }

  // ---------------------------------------------------------------------------------------------
  // Properties of the transitions

  /**
   * A correct answer before the last level banks the energy and enters the next level afresh,
   * with no crashes; a game-over flag raised in the same frame as the gate stays set.
   */
  lemma CorrectAnswerNextLevel(s: State, rng: seq<LevelDraw>)
    requires Inv(s) && DrawsFit(rng) && s.awaitingRiddle && Matches(s) && s.levelIndex + 1 < |LEVELS|
    ensures var r := AnswerChecked(s, rng);
      && r.levelIndex == s.levelIndex + 1
      && r.levelScores == s.levelScores + [s.score]
      && |r.levelScores| == r.levelIndex
      && r.score == 0 && r.crashes == 0 && r.wrongAttempts == 0 && r.gameOver == s.gameOver
      && !r.awaitingRiddle && r.currentRiddle.None? && !r.showHint && !r.hintShown
      && r.showLevelIntro && Point(r.x, r.y) == ENTRY
      && StarsPlaced(r.stars, StarCount(r.levelIndex), ENTRY)
  {
  }

  /**
   * A correct answer at the last level ends the game and keeps the energy and the crashes. The
   * final scoreboard is shown while the riddle is still pending, and entering the answer again
   * (typed into an answer that is not displayed) adds a fourth
   * ledger entry, on which drawing the scoreboard fails.
   */
  lemma CorrectAnswerLastLevel(s: State, rng: seq<LevelDraw>)
    requires Inv(s) && DrawsFit(rng) && s.awaitingRiddle && Matches(s) && s.levelIndex + 1 == |LEVELS|
    ensures var r := AnswerChecked(s, rng);
      && r.levelIndex == |LEVELS|
      && r.levelScores == s.levelScores + [s.score]
      && r.gameOver && r.score == s.score && r.crashes == s.crashes
      && r.awaitingRiddle && r.currentRiddle == s.currentRiddle && Matches(r)
      && !ScoreboardFails(r)
      && ScoreboardFails(AnswerChecked(r, rng))
  {
  }

  /** A wrong answer changes nothing but the count of misses. */
  lemma WrongAnswerCounted(s: State, rng: seq<LevelDraw>)
    requires DrawsFit(rng) && s.awaitingRiddle && !Matches(s)
    ensures KeyPressed(s, Return, "", rng) == s.(wrongAttempts := s.wrongAttempts + 1)
  {
  }

  /**
   * While a riddle is awaited the keys edit the answer: Backspace drops its last character, if
   * any, and every other key but Enter appends its text, R included.
   */
  lemma AnswerEditing(s: State, key: Key, unicode: string, rng: seq<LevelDraw>)
    requires DrawsFit(rng) && s.awaitingRiddle && key != Return
    ensures var r := KeyPressed(s, key, unicode, rng);
      && r == s.(riddleAnswer := r.riddleAnswer)
      && (key == Backspace && s.riddleAnswer == [] ==> r.riddleAnswer == [])
      && (key == Backspace && s.riddleAnswer != [] ==> r.riddleAnswer + [s.riddleAnswer[|s.riddleAnswer| - 1]] == s.riddleAnswer)
      && (key != Backspace ==> r.riddleAnswer == s.riddleAnswer + unicode)
  {
  }

  /** R starts a new session exactly when the game is over and no riddle is awaited. */
  lemma RestartKey(s: State, rng: seq<LevelDraw>)
    requires DrawsFit(rng) && !s.awaitingRiddle
    ensures KeyPressed(s, KeyR, "r", rng) == if s.gameOver then Initial(rng) else s
  {
  }

  /** A click reveals the hint exactly when it hits the offered Hint button, and changes nothing else. */
  lemma HintClick(s: State, pos: Point)
    ensures Clicked(s, pos).hintShown <==> s.hintShown || (s.showHint && Collides(HINT_RECT, pos))
    ensures Clicked(s, pos) == s.(hintShown := Clicked(s, pos).hintShown)
  {
  }

  /**
   * Once the game is won it stays won. The final scoreboard is shown while a riddle is still
   * awaited, so R only types into an answer that is not displayed, and no event leaves this state.
   */
  lemma WonScreenStays(s: State, e: Event, rng: seq<LevelDraw>)
    requires Inv(s) && DrawsFit(rng) && s.levelIndex >= |LEVELS|
    ensures var r := OnEvent(s, e, rng).1;
      r.levelIndex >= s.levelIndex && r.gameOver && r.awaitingRiddle
  {
  }

  /** A run of events keeps a won game won. */
  lemma {:induction false} WonGameStays(s: State, events: seq<Event>, rngs: seq<seq<LevelDraw>>, i: nat)
    requires Inv(s) && |rngs| == |events| && AllDrawsFit(rngs) && i <= |events| && s.levelIndex >= |LEVELS|
    ensures var r := Handled(s, events, rngs, i).1;
      r.levelIndex >= s.levelIndex && r.gameOver && r.awaitingRiddle
    decreases |events| - i
  {
    if i < |events| {
      WonScreenStays(s, events[i], rngs[i]);
      EventKeepsInv(s, events[i], rngs[i]);
      var (flow, t) := OnEvent(s, events[i], rngs[i]);
      if flow == Running {
        WonGameStays(t, events, rngs, i + 1);
      }
    }
  }

  lemma NextLevelKeepsInv(s: State, rng: seq<LevelDraw>)
    requires Inv(s) && DrawsFit(rng) && s.awaitingRiddle && s.levelIndex + 1 < |LEVELS|
    ensures Inv(Advanced(s, rng))
  {
    var r := Advanced(s, rng);
    assert r.levelScores == s.levelScores + [s.score];
    HitCountBound(r.obstacles);
  }

  lemma LastLevelKeepsInv(s: State, rng: seq<LevelDraw>)
    requires Inv(s) && DrawsFit(rng) && s.awaitingRiddle && s.levelIndex + 1 >= |LEVELS|
    ensures Inv(Advanced(s, rng))
  {
    var r := Advanced(s, rng);
    assert r.levelScores == s.levelScores + [s.score];
    assert LedgerOk(r.levelIndex, r.levelScores, r.score);
  }

  lemma AnswerKeepsInv(s: State, rng: seq<LevelDraw>)
    requires Inv(s) && DrawsFit(rng) && s.awaitingRiddle
    ensures Inv(AnswerChecked(s, rng))
  {
    if !Matches(s) {
    } else if s.levelIndex + 1 < |LEVELS| {
      NextLevelKeepsInv(s, rng);
    } else {
      LastLevelKeepsInv(s, rng);
    }
  }

  lemma KeyKeepsInv(s: State, key: Key, unicode: string, rng: seq<LevelDraw>)
    requires Inv(s) && DrawsFit(rng)
    ensures Inv(KeyPressed(s, key, unicode, rng))
  {
    if s.awaitingRiddle && key == Return {
      AnswerKeepsInv(s, rng);
    } else if !s.awaitingRiddle && s.gameOver && key == KeyR {
      FreshGame(rng);
    }
  }

  lemma EventKeepsInv(s: State, e: Event, rng: seq<LevelDraw>)
    requires Inv(s) && DrawsFit(rng)
    ensures Inv(OnEvent(s, e, rng).1)
  {
    match e
    case Quit =>
    case KeyDown(key, unicode) => KeyKeepsInv(s, key, unicode, rng);
    case MouseDown(pos) =>
  }

  /** Every event keeps the invariant, whichever way the loop ends. */
  lemma {:induction false} HandledKeepsInv(s: State, events: seq<Event>, rngs: seq<seq<LevelDraw>>, i: nat)
    requires Inv(s) && |rngs| == |events| && AllDrawsFit(rngs) && i <= |events|
    ensures Inv(Handled(s, events, rngs, i).1)
    ensures Handled(s, events, rngs, i).0 != Raised
    decreases |events| - i
  {
    if i < |events| {
      EventKeepsInv(s, events[i], rngs[i]);
      var (flow, t) := OnEvent(s, events[i], rngs[i]);
      if flow == Running {
        HandledKeepsInv(t, events, rngs, i + 1);
      }
    }
  }

  /**
   * A playing frame keeps the number of stars, adds ten points per captured star, adds one crash
   * per obstacle first touched, and ends the game when one of those crashes is the fifth or later.
   * The obstacles stay the same ones, only flagged: no obstacle is added during play.
   */
  lemma PlayedFrame(s: State, f: FrameInput)
    requires Inv(s) && Playing(s) && FrameFits(s, f)
    ensures var r := Updated(s, f);
      && |r.stars| == |s.stars|
      && r.score == s.score + STAR_POINTS * Captures(f.starHits)
      && r.crashes == s.crashes + NewHits(s.obstacles, f.hazardHits)
      && HitCount(r.obstacles) == HitCount(s.obstacles) + (r.crashes - s.crashes)
      && (r.gameOver <==> r.crashes > s.crashes && r.crashes >= MAX_CRASHES)
      && |r.obstacles| == |s.obstacles|
      && (forall k :: 0 <= k < |r.obstacles| ==> r.obstacles[k].kind == s.obstacles[k].kind)
      && r.levelIndex == s.levelIndex && r.levelScores == s.levelScores
  {
    KeptSpawnedSizes(s.stars, f.replacements, f.starHits);
    HitAccounting(s.obstacles, f.hazardHits);
  }

  /**
   * The gate opens exactly when the level's threshold is met. The riddle is picked from the pool
   * and stays in it, so riddles may repeat; the Hint button is offered with its hint hidden.
   */
  lemma GateDraw(s: State, f: FrameInput)
    requires Inv(s) && Playing(s) && FrameFits(s, f)
    ensures var r := Updated(s, f);
      && (r.awaitingRiddle <==> r.score >= Threshold(LEVELS[s.levelIndex]))
      && (r.awaitingRiddle ==>
            && r.levelComplete && r.riddleAnswer == [] && r.showHint && !r.hintShown
            && r.currentRiddle == Some(s.remainingRiddles[f.riddlePick]))
      && (!r.awaitingRiddle ==> r.currentRiddle.None? && !r.showHint)
      && r.remainingRiddles == s.remainingRiddles
  {
  }

  lemma PlayedKeepsInv(s: State, f: FrameInput)
    requires Inv(s) && Playing(s) && FrameFits(s, f)
    ensures Inv(Updated(s, f))
  {
    PlayedFrame(s, f);
    CaptureKeepsField(s.stars, f.starHits, f.replacements);
  }

  lemma UpdateKeepsInv(s: State, f: FrameInput)
    requires Inv(s) && FrameFits(s, f)
    ensures Inv(Updated(s, f))
  {
    if Playing(s) {
      PlayedKeepsInv(s, f);
    }
  }

  /** `update` changes nothing while the game is over, the gate is open or the intro runs. */
  lemma FrozenFrame(s: State, f: FrameInput)
    requires Inv(s) && FrameFits(s, f)
    requires s.gameOver || s.levelComplete || s.awaitingRiddle || s.showLevelIntro
    ensures Updated(s, f) == s
  {
  }

  lemma PaintedKeepsInv(s: State)
    requires Inv(s)
    ensures Inv(Painted(s))
  {
    if s.showLevelIntro {
    } else {
    }
  }

  /** `IntroStep` applied `n` times. */
  function IntroAfter(s: State, n: nat): State
    decreases n
  {
    if n == 0 then s else IntroAfter(IntroStep(s), n - 1)
  }

  lemma {:induction false} IntroAfterLast(s: State, n: nat)
    ensures IntroAfter(s, n + 1) == IntroStep(IntroAfter(s, n))
    decreases n
  {
    if n > 0 {
      IntroAfterLast(IntroStep(s), n - 1);
    }
  }

  /**
   * An intro lasts 40 frames: the craft glides from the left edge by 10 a frame and the level
   * starts on the frame it reaches the middle.
   */
  lemma {:induction false} IntroTiming(s: State, n: nat)
    requires s.showLevelIntro && s.x == ENTRY.x
    requires n <= 40
    ensures var r := IntroAfter(s, n);
      && r.x == ENTRY.x + INTRO_STEP * n
      && (r.showLevelIntro <==> n < 40)
      && r == s.(x := r.x, showLevelIntro := r.showLevelIntro)
  {
    if n > 0 {
      IntroTiming(s, n - 1);
      IntroAfterLast(s, n - 1);
    }
  }

  /** Every pass of the main loop that does not stop on an error keeps the invariant. */
  lemma TickKeepsInv(s: State, events: seq<Event>, rngs: seq<seq<LevelDraw>>, f: FrameInput)
    requires Inv(s) && |rngs| == |events| && AllDrawsFit(rngs)
    requires FrameFits(Handled(s, events, rngs, 0).1, f)
    ensures Tick(s, events, rngs, f).0 != Raised ==> Inv(Tick(s, events, rngs, f).1)
  {
    var t := Handled(s, events, rngs, 0).1;
    HandledKeepsInv(s, events, rngs, 0);
    UpdateKeepsInv(t, f);
    PaintedKeepsInv(Updated(t, f));
  }

  // ---------------------------------------------------------------------------------------------
  // The game object

  /** `Game`: the session object the main loop drives. */
  class Game {
    var levelIndex: nat
    /** The craft; `__init__` builds a new one, which this model does by re-initialising it. */
    const player: Ufo
    var obstacles: seq<Obstacle>
    var stars: seq<Star>
    var score: nat
    var gameOver: bool
    var levelComplete: bool
    var awaitingRiddle: bool
    var riddleAnswer: string
    var currentRiddle: Option<Riddle>
    var showHint: bool
    var hintShown: bool
    var showLevelIntro: bool
    var remainingRiddles: seq<Riddle>
    var levelScores: seq<nat>
    var wrongAttempts: nat

    /** The game's fields, the craft's included, as a `State`. */
    ghost function Snapshot(): State
      reads this, player
    {
      State(levelIndex, player.x, player.y, player.crashes, obstacles, stars, score, gameOver,
        levelComplete, awaitingRiddle, riddleAnswer, currentRiddle, showHint, hintShown,
        showLevelIntro, remainingRiddles, levelScores, wrongAttempts)
    }

    ghost predicate Valid()
      reads this, player
    {
      Inv(Snapshot())
    }

    constructor (rng: seq<LevelDraw>)
      requires DrawsFit(rng)
      ensures Valid() && Snapshot() == Initial(rng)
    {
      player := new Ufo(ENTRY);
      new;
      Restart(rng);
    }

    /** `Game.__init__`, which the R key also calls to start a new session. */
    method Restart(rng: seq<LevelDraw>)
      requires DrawsFit(rng)
      modifies this, player
      ensures Valid() && Snapshot() == Initial(rng)
    {
      Init(rng);
      FreshGame(rng);
    }

    /** The assignments of `__init__`. */
    method Init(rng: seq<LevelDraw>)
      requires DrawsFit(rng)
      modifies this, player
      ensures Snapshot() == Initial(rng)
    {
      player.Reinit(ENTRY);
      InitProgressStores(rng);
      InitGateStores();
    }

    /** The progress fields as `__init__` sets them. */
    method InitProgressStores(rng: seq<LevelDraw>)
      requires DrawsFit(rng)
      modifies this`levelIndex, this`obstacles, this`stars, this`score, this`gameOver
      modifies this`remainingRiddles, this`levelScores, this`wrongAttempts
      ensures levelIndex == 0 && obstacles == [] && stars == rng[0].stars && score == 0 && !gameOver
      ensures remainingRiddles == RIDDLES && levelScores == [] && wrongAttempts == 0
    {
      levelIndex := 0;
      obstacles := [];
      stars := rng[0].stars;
      score := 0;
      gameOver := false;
      remainingRiddles := RIDDLES;
      levelScores := [];
      wrongAttempts := 0;
    }

    /** The gate, hint and intro fields as `__init__` sets them. */
    method InitGateStores()
      modifies this`levelComplete, this`awaitingRiddle, this`riddleAnswer, this`currentRiddle
      modifies this`showHint, this`hintShown, this`showLevelIntro
      ensures !levelComplete && !awaitingRiddle && riddleAnswer == [] && currentRiddle.None?
      ensures !showHint && !hintShown && showLevelIntro
    {
      levelComplete := false;
      awaitingRiddle := false;
      riddleAnswer := "";
      currentRiddle := None;
      showHint := false;
      hintShown := false;
      showLevelIntro := true;
    }

    /** `Game.reset_level`. */
    method ResetLevel(rng: seq<LevelDraw>)
      requires DrawsFit(rng) && levelIndex < |LEVELS|
      modifies this`awaitingRiddle, this`levelComplete, this`riddleAnswer, this`currentRiddle
      modifies this`showHint, this`hintShown, this`wrongAttempts, player`x, player`y
      modifies this`obstacles, this`stars, this`showLevelIntro
      ensures Snapshot() == LevelReset(old(Snapshot()), rng)
    {
      Clear();
      Stage(rng);
    }

    /** The gate, answer, hint and misses as `reset_level` clears them. */
    method Clear()
      modifies this`awaitingRiddle, this`levelComplete, this`riddleAnswer, this`currentRiddle
      modifies this`showHint, this`hintShown, this`wrongAttempts
      ensures Snapshot() == Cleared(old(Snapshot()))
    {
      ClearStores();
    }

    /** The assignments of `Clear`, field by field. */
    method ClearStores()
      modifies this`awaitingRiddle, this`levelComplete, this`riddleAnswer, this`currentRiddle
      modifies this`showHint, this`hintShown, this`wrongAttempts
      ensures !awaitingRiddle && !levelComplete && riddleAnswer == [] && currentRiddle.None?
      ensures !showHint && !hintShown && wrongAttempts == 0
    {
      awaitingRiddle := false;
      levelComplete := false;
      riddleAnswer := "";
      currentRiddle := None;
      showHint := false;
      hintShown := false;
      wrongAttempts := 0;
    }

    /** The craft is put at the left edge, the level's field is laid out and its intro starts. */
    method Stage(rng: seq<LevelDraw>)
      requires DrawsFit(rng) && levelIndex < |LEVELS|
      modifies player`x, player`y, this`obstacles, this`stars, this`showLevelIntro
      ensures Snapshot() == Staged(old(Snapshot()), rng)
    {
      StageStores(rng);
    }

    /** The assignments of `Stage`, field by field. */
    method StageStores(rng: seq<LevelDraw>)
      requires DrawsFit(rng) && levelIndex < |LEVELS|
      modifies player`x, player`y, this`obstacles, this`stars, this`showLevelIntro
      ensures player.x == ENTRY.x && player.y == ENTRY.y
      ensures obstacles == rng[levelIndex].hazards && stars == rng[levelIndex].stars
      ensures showLevelIntro
    {
      player.x := ENTRY.x;
      player.y := ENTRY.y;
      showLevelIntro := true;
      obstacles := rng[levelIndex].hazards;
      stars := rng[levelIndex].stars;
    }

    /** Enter while a riddle is awaited. */
    method CheckAnswer(rng: seq<LevelDraw>)
      requires DrawsFit(rng)
      modifies this, player
      ensures Snapshot() == AnswerChecked(old(Snapshot()), rng)
    {
      if currentRiddle.Some? && Lower(riddleAnswer) == currentRiddle.value.answer {
        NextLevel(rng);
      } else {
        wrongAttempts := wrongAttempts + 1;
      }
    }

    /** `Game.next_level`. */
    method NextLevel(rng: seq<LevelDraw>)
      requires DrawsFit(rng)
      modifies this, player
      ensures Snapshot() == Advanced(old(Snapshot()), rng)
    {
      levelScores := levelScores + [score];
      levelIndex := levelIndex + 1;
      if levelIndex >= |LEVELS| {
        gameOver := true;
      } else {
        score := 0;
        player.crashes := 0;
        ResetLevel(rng);
      }
    }

    /** A KEYDOWN event. */
    method OnKey(key: Key, unicode: string, rng: seq<LevelDraw>)
      requires DrawsFit(rng)
      modifies this, player
      ensures Snapshot() == KeyPressed(old(Snapshot()), key, unicode, rng)
    {
      if awaitingRiddle {
        if key == Return {
          CheckAnswer(rng);
        } else if key == Backspace {
          riddleAnswer := DropLast(riddleAnswer);
        } else {
          riddleAnswer := riddleAnswer + unicode;
        }
      } else if gameOver && key == KeyR {
        Restart(rng);
      }
    }

    /** A MOUSEBUTTONDOWN event: the Hint button. */
    method OnClick(pos: Point)
      modifies this`hintShown
      ensures Snapshot() == Clicked(old(Snapshot()), pos)
    {
      if showHint && Collides(HINT_RECT, pos) {
        hintShown := true;
      }
    }

    /** `Game.handle_events`: the events of one frame, in order, until QUIT. */
    method HandleEvents(events: seq<Event>, rngs: seq<seq<LevelDraw>>) returns (flow: Flow)
      requires Valid() && |rngs| == |events| && AllDrawsFit(rngs)
      modifies this, player
      ensures flow == Handled(old(Snapshot()), events, rngs, 0).0
      ensures Valid() && Snapshot() == Handled(old(Snapshot()), events, rngs, 0).1
    {
      var i := 0;
      while i < |events|
        invariant 0 <= i <= |events|
        invariant Valid()
        invariant Handled(old(Snapshot()), events, rngs, 0) == Handled(Snapshot(), events, rngs, i)
        decreases |events| - i
      {
        flow := Dispatch(events[i], rngs[i]);
        if flow != Running {
          return;
        }
        i := i + 1;
      }
      return Running;
    }

    /** One event of `Game.handle_events`. */
    method Dispatch(e: Event, rng: seq<LevelDraw>) returns (flow: Flow)
      requires Valid() && DrawsFit(rng)
      modifies this, player
      ensures flow == OnEvent(old(Snapshot()), e, rng).0
      ensures Valid() && Snapshot() == OnEvent(old(Snapshot()), e, rng).1
    {
      EventKeepsInv(Snapshot(), e, rng);
      match e {
        case Quit =>
          return Exited;
        case KeyDown(key, unicode) =>
          OnKey(key, unicode, rng);
          return Running;
        case MouseDown(pos) =>
          OnClick(pos);
          return Running;
      }
    }

    /** `Game.update`. */
    method Update(f: FrameInput)
      requires Valid() && FrameFits(Snapshot(), f)
      modifies this, player
      ensures Valid() && Snapshot() == Updated(old(Snapshot()), f)
    {
      UpdateKeepsInv(Snapshot(), f);
      if gameOver || levelComplete || awaitingRiddle || showLevelIntro {
        return;
      }
      Play(f);
    }

    /** A playing frame of `Game.update`. */
    method Play(f: FrameInput)
      requires Playing(Snapshot()) && levelIndex < |LEVELS| && FrameFits(Snapshot(), f)
      modifies this, player
      ensures Snapshot() == Played(old(Snapshot()), f)
    {
      Fly(f);
      if score >= Threshold(LEVELS[levelIndex]) {
        OpenGate(f.riddlePick);
      }
    }

    /** The flight: move the craft, count the crashes, capture the stars. */
    method Fly(f: FrameInput)
      requires |f.hazardHits| == |obstacles| && |f.starHits| == |stars| == |f.replacements|
      modifies player`x, player`y, player`crashes, this`obstacles, this`gameOver, this`stars, this`score
      ensures Snapshot() == Flown(old(Snapshot()), f)
    {
      player.Move(f.keys);
      CountCrashes(f.hazardHits);
      CollectStars(f.starHits, f.replacements);
    }

    /** The collision loop of `Game.update`. */
    method CountCrashes(hits: seq<bool>)
      requires |hits| == |obstacles|
      modifies this`obstacles, player`crashes, this`gameOver
      ensures Snapshot() == Crashed(old(Snapshot()), hits)
    {
      var crashes, over;
      obstacles, crashes, over := ResolveCrashes(obstacles, hits, player.crashes, gameOver);
      player.crashes, gameOver := crashes, over;
    }

    /** The star loop of `Game.update`. */
    method CollectStars(hits: seq<bool>, replacements: seq<Star>)
      requires |hits| == |stars| == |replacements|
      modifies this`stars, this`score
      ensures Snapshot() == Collected(old(Snapshot()), hits, replacements)
    {
      stars, score := CaptureStars(stars, hits, replacements, score);
    }

    /** The riddle gate opens with the Hint button offered and a riddle picked from the pool. */
    method OpenGate(pick: nat)
      requires pick < |remainingRiddles|
      modifies this`levelComplete, this`awaitingRiddle, this`riddleAnswer, this`currentRiddle
      modifies this`showHint, this`hintShown
      ensures Snapshot() == GateOpened(old(Snapshot()), pick)
    {
      Complete();
      OfferHint();
      currentRiddle := Some(remainingRiddles[pick]);
    }

    /** The level is complete and the gate opens. */
    method Complete()
      modifies this`levelComplete, this`awaitingRiddle, this`riddleAnswer
      ensures Snapshot() == Completed(old(Snapshot()))
    {
      levelComplete, awaitingRiddle, riddleAnswer := true, true, "";
    }

    /** The Hint button is offered. */
    method OfferHint()
      modifies this`showHint, this`hintShown
      ensures Snapshot() == HintOffered(old(Snapshot()))
    {
      showHint, hintShown := true, false;
    }

    /** The part of `Game.draw` that changes the game: the intro's glide. */
    method Draw()
      modifies player`x, this`showLevelIntro
      ensures Snapshot() == Painted(old(Snapshot()))
    {
      if gameOver && levelIndex >= |LEVELS| {
        return;
      }
      if levelIndex < |LEVELS| && showLevelIntro {
        if player.x < WIDTH / 2 {
          player.x := player.x + INTRO_STEP;
        }
        if player.x >= WIDTH / 2 {
          showLevelIntro := false;
        }
      }
    }

    /** One pass of the main loop. */
    method RunFrame(events: seq<Event>, rngs: seq<seq<LevelDraw>>, f: FrameInput) returns (flow: Flow)
      requires Valid() && |rngs| == |events| && AllDrawsFit(rngs)
      requires FrameFits(Handled(Snapshot(), events, rngs, 0).1, f)
      modifies this, player
      ensures flow == Tick(old(Snapshot()), events, rngs, f).0
      ensures flow != Raised ==> Valid() && Snapshot() == Tick(old(Snapshot()), events, rngs, f).1
    {
      flow := HandleEvents(events, rngs);
      Update(f);
      if gameOver && levelIndex >= |LEVELS| && |levelScores| > |LEVELS| {
        // the scoreboard indexes `levels` out of range
        return Raised;
      }
      PaintedKeepsInv(Snapshot());
      Draw();
    }
  }
}
