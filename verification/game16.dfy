/**
 * The final revision of the game (`game16.py`). It has three levels and seventeen riddles drawn
 * without replacement. It adds a hint button, Try Again and Restart buttons on the game-over
 * screen, and a scoreboard animation followed by a win screen.
 *
 * `State` is the logical state of `Game`. The functions below are its transitions, and `Inv` is
 * what they keep. `Game` is the class itself: each method changes its fields exactly as the
 * matching function says.
 */
module Game16 {
  import opened Basics
  import opened Arena
  import opened Stars
  import opened Hazards
  import opened Riddles
  import opened Session

  const LEVELS: seq<Level> := [
    Level("Pink City", 10, 15, 2),
    Level("Blue Space", 12, 18, 3),
    Level("Ocean Block", 15, 22, 4)]

  const RIDDLES: seq<Riddle> := [
    Riddle("I speak without a mouth and hear without ears. What am I?", "echo"),
    Riddle("I\U{2019}m tall when I\U{2019}m young, and short when I\U{2019}m old. What am I?", "candle"),
    Riddle("What has keys but can\U{2019}t open locks?", "piano"),
    Riddle("The more of me you take, the more you leave behind. What am I?", "footsteps"),
    Riddle("I have cities but no houses, forests but no trees, and water but no fish. What am I?", "map"),
    Riddle("What can run but never walks, has a mouth but never talks?", "river"),
    Riddle("I am always hungry and will die if not fed, but whatever I touch will soon turn red. What am I?", "fire"),
    Riddle("I can fly without wings, cry without eyes. What am I?", "cloud"),
    Riddle("The more you take away from me, the bigger I get. What am I?", "hole"),
    Riddle("What has many teeth, but cannot bite?", "comb"),
    Riddle("What goes up but never comes down?", "age"),
    Riddle("What has a neck but no head?", "bottle"),
    Riddle("What can travel around the world while staying in a corner?", "stamp"),
    Riddle("What has hands but cannot clap?", "clock"),
    Riddle("I\U{2019}m light as a feather, yet the strongest man cannot hold me for long. What am I?", "breath"),
    Riddle("What begins with T, ends with T, and has T in it?", "teapot"),
    Riddle("What comes once in a minute, twice in a moment, but never in a thousand years?", "m")]

  /** Where `UFO()` starts and where `reset_level` puts the craft back: the left edge, mid-height. */
  const ENTRY: Point := Point(0, HEIGHT / 2)
  const TRY_AGAIN_RECT: Rect := Rect(WIDTH / 2 - 120, HEIGHT / 2 + 50, 100, 50)
  /** The Restart button of the game-over screen. */
  const RESTART_RECT: Rect := Rect(WIDTH / 2 + 20, HEIGHT / 2 + 50, 100, 50)
  /** The Restart button the win screen draws, which replaces `restart_rect` for good. */
  const WIN_RESTART_RECT: Rect := Rect(WIDTH / 2 - 60, HEIGHT / 2 + 40, 120, 50)
  const HINT_RECT: Rect := Rect(WIDTH / 2 - 60, HEIGHT / 2 + 40, 120, 40)
  /** Wrong answers after which the hint is revealed without a click. */
  const HINT_AFTER: nat := 3
  /** Pixels the craft glides right per frame of the level intro. */
  const INTRO_STEP: int := 10
  const FINAL_UFO_START: int := -150
  const FINAL_UFO_STEP: int := 4
  /** Frames the scoreboard stays once its craft has left the screen. */
  const WIN_DELAY: nat := 120

  datatype State = State(
    levelIndex: nat,
    x: int,
    y: int,
    crashes: nat,
    obstacles: seq<Obstacle>,
    stars: seq<Star>,
    score: nat,
    gameOver: bool,
    levelComplete: bool,
    awaitingRiddle: bool,
    riddleAnswer: string,
    currentRiddle: Option<Riddle>,
    showHint: bool,
    hintShown: bool,
    showLevelIntro: bool,
    remainingRiddles: seq<Riddle>,
    levelScores: seq<nat>,
    wrongAttempts: nat,
    showScoreboard: bool,
    showWin: bool,
    winTimer: nat,
    finalUfoX: int,
    restartRect: Rect)

  /** The random draws of one `reset_level` for each level: its obstacles and stars. */
  predicate DrawsFit(rng: seq<LevelDraw>)
  {
    |rng| == |LEVELS| &&
    forall i :: 0 <= i < |rng| ==>
      DrawFits(rng[i], LEVELS[i].rocks, LEVELS[i].blackholes, StarCount(i), ENTRY)
  }

  /** The ledger: one entry per passed level, each a multiple of ten at least that level's threshold. */
  predicate LedgerOk(levelIndex: nat, levelScores: seq<nat>, score: nat)
  {
    && levelIndex <= |LEVELS|
    && |levelScores| == levelIndex
    && (forall k :: 0 <= k < |levelScores| ==>
          levelScores[k] >= Threshold(LEVELS[k]) && levelScores[k] % STAR_POINTS == 0)
    && score % STAR_POINTS == 0
  }

  /** The ending screens are shown, one at a time, exactly when every level is passed. */
  predicate EndingOk(levelIndex: nat, showScoreboard: bool, showWin: bool, winTimer: nat, finalUfoX: int,
    restartRect: Rect)
  {
    && (levelIndex == |LEVELS| <==> showScoreboard || showWin)
    && !(showScoreboard && showWin)
    && (!showScoreboard && !showWin ==> finalUfoX == FINAL_UFO_START && winTimer == 0)
    && (restartRect == RESTART_RECT || (showWin && restartRect == WIN_RESTART_RECT))
  }

  /** A riddle is pending exactly when the gate is open, once the threshold is met, and it comes from the pool. */
  predicate GateOk(levelIndex: nat, score: nat, awaitingRiddle: bool, currentRiddle: Option<Riddle>,
    remainingRiddles: seq<Riddle>, showHint: bool, hintShown: bool)
  {
    && (awaitingRiddle <==> currentRiddle.Some?)
    && (awaitingRiddle ==>
          levelIndex < |LEVELS| && score >= Threshold(LEVELS[levelIndex])
          && currentRiddle.value in remainingRiddles)
    && !(showHint && hintShown)
    && |remainingRiddles| > 0
  }

  /** The fifth crash ends the game, and every flagged obstacle was counted as a crash. */
  predicate CrashesOk(crashes: nat, gameOver: bool, obstacles: seq<Obstacle>)
  {
    && (crashes >= MAX_CRASHES ==> gameOver)
    && HitCount(obstacles) <= crashes
  }

  /** The stars on screen: as many as the level places, all inside the star field. */
  predicate StarsOk(levelIndex: nat, stars: seq<Star>)
  {
    && (levelIndex < |LEVELS| ==> |stars| == StarCount(levelIndex))
    && AllInField(stars)
  }

  /** What every state the game reaches satisfies. */
  ghost predicate Inv(s: State)
  {
    && LedgerOk(s.levelIndex, s.levelScores, s.score)
    && EndingOk(s.levelIndex, s.showScoreboard, s.showWin, s.winTimer, s.finalUfoX, s.restartRect)
    && GateOk(s.levelIndex, s.score, s.awaitingRiddle, s.currentRiddle, s.remainingRiddles, s.showHint,
         s.hintShown)
    && CrashesOk(s.crashes, s.gameOver, s.obstacles)
    && StarsOk(s.levelIndex, s.stars)
  }

  /** The fields `Game.__init__` sets before it calls `reset_level`. */
  function Constructed(): State
  {
    State(
      levelIndex := 0, x := ENTRY.x, y := ENTRY.y, crashes := 0, obstacles := [], stars := [],
      score := 0, gameOver := false, levelComplete := false, awaitingRiddle := false,
      riddleAnswer := "", currentRiddle := None, showHint := false, hintShown := false,
      showLevelIntro := true, remainingRiddles := RIDDLES, levelScores := [], wrongAttempts := 0,
      showScoreboard := false, showWin := false, winTimer := 0, finalUfoX := FINAL_UFO_START,
      restartRect := RESTART_RECT)
  }

  /** `Game.reset_level`: rebuild the field of the current level and enter it from the left. */
  function LevelReset(s: State, preserveLevelIndex: bool, rng: seq<LevelDraw>): (r: State)
    requires DrawsFit(rng)
    requires preserveLevelIndex ==> s.levelIndex < |LEVELS|
    ensures r.levelIndex == (if !preserveLevelIndex && s.levelIndex >= |LEVELS| then 0 else s.levelIndex)
    ensures LevelHazards(r.obstacles, LEVELS[r.levelIndex].rocks, LEVELS[r.levelIndex].blackholes)
    ensures StarsPlaced(r.stars, StarCount(r.levelIndex), ENTRY)
    ensures Point(r.x, r.y) == ENTRY && r.showLevelIntro
    ensures !r.awaitingRiddle && !r.levelComplete && r.currentRiddle.None? && r.riddleAnswer == []
    ensures r.wrongAttempts == 0 && !r.showHint && !r.hintShown
    ensures r.score == s.score && r.crashes == s.crashes && r.levelScores == s.levelScores
    ensures r.remainingRiddles == s.remainingRiddles && r.gameOver == s.gameOver
  {
    var index := if !preserveLevelIndex && s.levelIndex >= |LEVELS| then 0 else s.levelIndex;
    Staged(RiddleCleared(s.(levelIndex := index)), rng)
  }

  /** No gate open, no riddle pending, no answer typed and no hint, as at the start of a level. */
  function RiddleCleared(s: State): State
  {
    s.(awaitingRiddle := false, levelComplete := false, wrongAttempts := 0, riddleAnswer := "",
       currentRiddle := None, showHint := false, hintShown := false)
  }

  /** The current level's field is laid out and the craft waits at the entry point for the intro. */
  function Staged(s: State, rng: seq<LevelDraw>): State
    requires DrawsFit(rng)
    requires s.levelIndex < |LEVELS|
  {
    s.(x := ENTRY.x, y := ENTRY.y, showLevelIntro := true,
       obstacles := rng[s.levelIndex].hazards, stars := rng[s.levelIndex].stars)
  }

  /** `Game.__init__`: a new session at the first level with a full riddle pool. */
  function Initial(rng: seq<LevelDraw>): (s: State)
    requires DrawsFit(rng)
    ensures Inv(s)
    ensures s.levelIndex == 0 && s.levelScores == [] && s.score == 0 && s.crashes == 0
    ensures !s.gameOver && s.showLevelIntro && !s.awaitingRiddle && !s.showScoreboard && !s.showWin
    ensures s.remainingRiddles == RIDDLES && Point(s.x, s.y) == ENTRY
    ensures LevelHazards(s.obstacles, LEVELS[0].rocks, LEVELS[0].blackholes)
    ensures StarsPlaced(s.stars, StarCount(0), ENTRY)
  {
    var r := LevelReset(Constructed(), false, rng);
    HitCountBound(r.obstacles);
    r
  }

  /** The riddle pool, refilled with every riddle once it is empty. */
  function Refilled(pool: seq<Riddle>): (r: seq<Riddle>)
    ensures |r| > 0
    ensures pool != [] ==> r == pool
  {
    if pool == [] then RIDDLES else pool
  }

  /** Whether the typed answer matches the pending riddle after `strip().lower()` on both sides. */
  predicate Matches(s: State)
    requires s.currentRiddle.Some?
  {
    Normalize(s.riddleAnswer) == Normalize(s.currentRiddle.value.answer)
  }

  /** A correct answer's bookkeeping: the level's energy goes to the ledger, the answer box is reset. */
  function Banked(s: State): State
  {
    s.(levelScores := s.levelScores + [s.score], score := 0, riddleAnswer := "",
      wrongAttempts := 0, hintShown := false, showHint := false)
  }

  /** A solved riddle leaves the pool, which is refilled once empty, and the gate closes. */
  function Retired(s: State): State
    requires s.currentRiddle.Some?
  {
    s.(remainingRiddles := Refilled(RemoveFirst(s.remainingRiddles, s.currentRiddle.value)),
      currentRiddle := None, awaitingRiddle := false)
  }

  /** A correct answer: bank the level's energy, retire the riddle, advance the level. */
  function Passed(s: State): State
    requires s.currentRiddle.Some?
  {
    var r := Retired(Banked(s));
    r.(levelIndex := r.levelIndex + 1)
  }

  /** A wrong answer: one more miss and one more crash; the third miss reveals the hint. */
  function Missed(s: State): State
  {
    var wrong := s.wrongAttempts + 1;
    var crashes := s.crashes + 1;
    s.(wrongAttempts := wrong, riddleAnswer := "", crashes := crashes,
       gameOver := s.gameOver || crashes >= MAX_CRASHES,
       hintShown := s.hintShown || wrong >= HINT_AFTER,
       showHint := s.showHint && wrong < HINT_AFTER)
  }

  /** `Game.check_riddle_answer`. */
  function AnswerChecked(s: State, rng: seq<LevelDraw>): State
    requires DrawsFit(rng)
  {
    if s.currentRiddle.None? then s
    else if Matches(s) then
      var passed := Passed(s);
      if passed.levelIndex >= |LEVELS| then passed.(showScoreboard := true)
      else LevelReset(passed, false, rng)
    else Missed(s)
  }

  /** The KEYDOWN branch of `Game.handle_events`. */
  function KeyPressed(s: State, key: Key, unicode: string, rng: seq<LevelDraw>): State
    requires DrawsFit(rng)
  {
    if s.awaitingRiddle then
      match key
      case Return => AnswerChecked(s, rng)
      case Backspace => s.(riddleAnswer := DropLast(s.riddleAnswer))
      case _ => if |unicode| == 1 then s.(riddleAnswer := s.riddleAnswer + unicode) else s
    else if s.gameOver && key == KeyR then Initial(rng)
    else s
  }

  /** The hint button: a click on it reveals the hint once. */
  function HintClicked(s: State, pos: Point): State
  {
    if s.awaitingRiddle && s.currentRiddle.Some? && s.showHint && Collides(HINT_RECT, pos)
    then s.(hintShown := true, showHint := false)
    else s
  }

  /** Try Again: replay the current level from zero energy and zero crashes. */
  function TriedAgain(s: State, rng: seq<LevelDraw>): State
    requires DrawsFit(rng)
    requires s.levelIndex < |LEVELS|
  {
    LevelReset(s.(score := 0, crashes := 0), true, rng).(gameOver := false)
  }

  /**
   * A click on Try Again while the game is over after the last level was passed: `reset_level`
   * then indexes `levels` out of range and the game stops with an `IndexError`.
   */
  predicate ClickRaises(s: State, pos: Point)
  {
    s.gameOver && Collides(TRY_AGAIN_RECT, pos) && s.levelIndex >= |LEVELS|
  }

  /** The MOUSEBUTTONDOWN branch of `Game.handle_events`, when it does not raise. */
  function Clicked(s: State, pos: Point, rng: seq<LevelDraw>): State
    requires DrawsFit(rng)
    requires !ClickRaises(s, pos)
  {
    var hinted := HintClicked(s, pos);
    var retried :=
      if hinted.gameOver && Collides(TRY_AGAIN_RECT, pos) then TriedAgain(hinted, rng) else hinted;
    var restarted :=
      if hinted.gameOver && Collides(retried.restartRect, pos) then Initial(rng) else retried;
    if restarted.showWin && Collides(restarted.restartRect, pos) then Initial(rng) else restarted
  }

  /** One event of `Game.handle_events`: how the loop goes on, and the state after the event. */
  function OnEvent(s: State, e: Event, rng: seq<LevelDraw>): (Flow, State)
    requires DrawsFit(rng)
  {
    match e
    case Quit => (Exited, s)
    case KeyDown(key, unicode) => (Running, KeyPressed(s, key, unicode, rng))
    case MouseDown(pos) => if ClickRaises(s, pos) then (Raised, s) else (Running, Clicked(s, pos, rng))
  }

  /** Every reset a run of events may make has draws that fit the levels. */
  predicate AllDrawsFit(rngs: seq<seq<LevelDraw>>)
  {
    forall k :: 0 <= k < |rngs| ==> DrawsFit(rngs[k])
  }

  /**
   * `Game.handle_events` over the events of one frame from the `i`-th on, with one set of level
   * draws per event: how the loop ends, and the state it leaves.
   */
  function Handled(s: State, events: seq<Event>, rngs: seq<seq<LevelDraw>>, i: nat): (Flow, State)
    requires |rngs| == |events| && AllDrawsFit(rngs) && i <= |events|
    decreases |events| - i
  {
    if i == |events| then (Running, s)
    else
      var (flow, t) := OnEvent(s, events[i], rngs[i]);
      if flow != Running then (flow, t) else Handled(t, events, rngs, i + 1)
  }

  /** Whether a frame of `Game.update` moves the craft and plays the level. */
  predicate Playing(s: State)
  {
    !s.showWin && !s.showScoreboard && !s.gameOver && !s.awaitingRiddle && !s.showLevelIntro
  }

  /** The pool `random.choice` draws from when the gate opens, refilled if it is empty. */
  function GatePool(s: State): seq<Riddle>
  {
    Refilled(s.remainingRiddles)
  }

  /** A frame's inputs fit the state they are played on. */
  predicate FrameFits(s: State, f: FrameInput)
  {
    Playing(s) ==>
      FrameFitsField(f, s.obstacles, s.stars, Point(s.x, s.y)) && f.riddlePick < |GatePool(s)|
  }

  /** The scoreboard animation: its craft flies right, then a timer runs out to the win screen. */
  function ScoreboardStep(s: State): State
  {
    var ufoX := s.finalUfoX + FINAL_UFO_STEP;
    if ufoX > WIDTH + 200 then
      var timer := s.winTimer + 1;
      if timer > WIN_DELAY then s.(finalUfoX := ufoX, winTimer := timer, showScoreboard := false, showWin := true)
      else s.(finalUfoX := ufoX, winTimer := timer)
    else s.(finalUfoX := ufoX)
  }

  /** The level intro: the craft glides in from the left edge to the middle. */
  function IntroStep(s: State): State
  {
    if s.x < WIDTH / 2 then s.(x := s.x + INTRO_STEP) else s.(showLevelIntro := false)
  }

  /** The riddle gate opens: a riddle is picked from the pool, which keeps it until it is solved. */
  function GateOpened(s: State, pick: nat): State
    requires pick < |GatePool(s)|
  {
    var pool := GatePool(s);
    s.(levelComplete := true, awaitingRiddle := true, riddleAnswer := "", wrongAttempts := 0,
       showHint := true, hintShown := false, remainingRiddles := pool, currentRiddle := Some(pool[pick]))
  }

  /** The collision loop: obstacles touched for the first time are flagged and counted as crashes. */
  function Crashed(s: State, hits: seq<bool>): State
    requires |hits| == |s.obstacles|
  {
    var crashes := s.crashes + NewHits(s.obstacles, hits);
    s.(obstacles := MarkHits(s.obstacles, hits), crashes := crashes,
      gameOver := s.gameOver || (crashes > s.crashes && crashes >= MAX_CRASHES))
  }

  /** The star loop: captured stars score and are replaced by new ones at the end of the list. */
  function Collected(s: State, hits: seq<bool>, replacements: seq<Star>): State
    requires |hits| == |s.stars| == |replacements|
  {
    s.(stars := Kept(s.stars, hits) + Spawned(replacements, hits),
      score := s.score + STAR_POINTS * Captures(hits))
  }

  /** The flight part of a playing frame: move, spawn, crash and capture. */
  function Flown(s: State, f: FrameInput): State
    requires FrameFitsField(f, s.obstacles, s.stars, Point(s.x, s.y))
  {
    var at := Moved(Point(s.x, s.y), f.keys);
    var spawned := s.(x := at.x, y := at.y, obstacles := WithSpawn(s.obstacles, f.spawn));
    Collected(Crashed(spawned, f.hazardHits), f.starHits, f.replacements)
  }

  /** A playing frame: the flight, then the riddle gate opens once the level's threshold is met. */
  function Played(s: State, f: FrameInput): State
    requires Playing(s) && s.levelIndex < |LEVELS| && FrameFits(s, f)
  {
    var t := Flown(s, f);
    if t.score >= Threshold(LEVELS[t.levelIndex]) && !t.awaitingRiddle then GateOpened(t, f.riddlePick) else t
  }

  /** `Game.update`. */
  function Updated(s: State, f: FrameInput): State
    requires Inv(s) && FrameFits(s, f)
  {
    if s.showWin then s
    else if s.showScoreboard then ScoreboardStep(s)
    else if s.gameOver || s.awaitingRiddle || s.showLevelIntro then
      if s.showLevelIntro then IntroStep(s) else s
    else Played(s, f)
  }

  /** What `Game.draw` changes in the state: the win screen moves the Restart button. */
  function Drawn(s: State): State
  {
    if s.showWin then s.(restartRect := WIN_RESTART_RECT) else s
  }

  /** One pass of the main loop: the frame's events, then `update`, then `draw`. */
  function Tick(s: State, events: seq<Event>, rngs: seq<seq<LevelDraw>>, f: FrameInput): (Flow, State)
    requires Inv(s) && |rngs| == |events| && AllDrawsFit(rngs)
    requires FrameFits(Handled(s, events, rngs, 0).1, f)
  {
    var (flow, t) := Handled(s, events, rngs, 0);
    if flow == Raised then (Raised, t)
    else
      HandledKeepsInv(s, events, rngs, 0);
      (flow, Drawn(Updated(t, f)))
  }

  // ---------------------------------------------------------------------------------------------
  // Properties of the transitions

  /** A correct answer banks the level's energy in the ledger and moves on to the next level. */
  lemma CorrectAnswerAdvances(s: State, rng: seq<LevelDraw>)
    requires Inv(s) && DrawsFit(rng) && s.awaitingRiddle && Matches(s)
    ensures var r := AnswerChecked(s, rng);
      && r.levelScores == s.levelScores + [s.score]
      && r.levelIndex == s.levelIndex + 1
      && r.score == 0 && !r.awaitingRiddle && r.currentRiddle.None?
      && (r.levelIndex == |LEVELS| ==> r.showScoreboard)
      && (r.levelIndex < |LEVELS| ==>
            (r.showLevelIntro && Point(r.x, r.y) == ENTRY && StarsPlaced(r.stars, StarCount(r.levelIndex), ENTRY)))
      && r.remainingRiddles == Refilled(RemoveFirst(s.remainingRiddles, s.currentRiddle.value))
  {
  }

  /** A wrong answer costs one crash, clears the input and reveals the hint at the third miss. */
  lemma WrongAnswerPenalty(s: State, rng: seq<LevelDraw>)
    requires DrawsFit(rng) && s.awaitingRiddle && s.currentRiddle.Some? && !Matches(s)
    ensures var r := AnswerChecked(s, rng);
      && r.crashes == s.crashes + 1
      && r.wrongAttempts == s.wrongAttempts + 1
      && r.riddleAnswer == []
      && (r.gameOver <==> s.gameOver || s.crashes + 1 >= MAX_CRASHES)
      && (r.hintShown <==> s.hintShown || s.wrongAttempts + 1 >= HINT_AFTER)
      && r.awaitingRiddle && r.currentRiddle == s.currentRiddle
      && r.levelIndex == s.levelIndex && r.levelScores == s.levelScores && r.score == s.score
  {
  }

  /** Try Again keeps the level and the ledger and restarts the level from zero. */
  lemma TryAgainKeepsProgress(s: State, rng: seq<LevelDraw>)
    requires Inv(s) && DrawsFit(rng) && s.gameOver && s.levelIndex < |LEVELS|
    ensures var r := TriedAgain(s, rng);
      && Inv(r)
      && r.levelIndex == s.levelIndex && r.levelScores == s.levelScores
      && r.score == 0 && r.crashes == 0 && !r.gameOver && r.showLevelIntro
      && r.remainingRiddles == s.remainingRiddles && !r.awaitingRiddle
      && StarsPlaced(r.stars, StarCount(r.levelIndex), ENTRY)
  {
    HitCountBound(TriedAgain(s, rng).obstacles);
  }

  /** A wrong answer keeps the invariant: the extra crash can only end the game. */
  lemma MissKeepsInv(s: State)
    requires Inv(s)
    ensures Inv(Missed(s))
  {
  }

  /** A correct answer banks an energy that met the level's threshold, and empties the gate. */
  lemma PassKeepsParts(s: State)
    requires Inv(s) && s.currentRiddle.Some?
    ensures var p := Passed(s);
      && LedgerOk(p.levelIndex, p.levelScores, p.score)
      && GateOk(p.levelIndex, p.score, p.awaitingRiddle, p.currentRiddle, p.remainingRiddles, p.showHint,
           p.hintShown)
      && CrashesOk(p.crashes, p.gameOver, p.obstacles)
  {
    var p := Passed(s);
    assert p.levelScores == s.levelScores + [s.score];
  }

  /** Passing the last level opens the scoreboard. */
  lemma LastPassKeepsInv(s: State)
    requires Inv(s) && s.currentRiddle.Some? && Passed(s).levelIndex >= |LEVELS|
    ensures Inv(Passed(s).(showScoreboard := true))
  {
    PassKeepsParts(s);
  }

  /** Passing any other level enters the next one. */
  lemma NextLevelKeepsInv(s: State, rng: seq<LevelDraw>)
    requires Inv(s) && DrawsFit(rng) && s.currentRiddle.Some? && Passed(s).levelIndex < |LEVELS|
    ensures Inv(LevelReset(Passed(s), false, rng))
  {
    PassKeepsParts(s);
    HitCountBound(LevelReset(Passed(s), false, rng).obstacles);
  }

  lemma AnswerKeepsInv(s: State, rng: seq<LevelDraw>)
    requires Inv(s) && DrawsFit(rng)
    ensures Inv(AnswerChecked(s, rng))
  {
    if s.currentRiddle.Some? {
      if !Matches(s) {
        MissKeepsInv(s);
      } else if Passed(s).levelIndex >= |LEVELS| {
        LastPassKeepsInv(s);
      } else {
        NextLevelKeepsInv(s, rng);
      }
    }
  }

  lemma KeyKeepsInv(s: State, key: Key, unicode: string, rng: seq<LevelDraw>)
    requires Inv(s) && DrawsFit(rng)
    ensures Inv(KeyPressed(s, key, unicode, rng))
  {
    if s.awaitingRiddle && key == Return {
      AnswerKeepsInv(s, rng);
    }
  }

  lemma ClickKeepsInv(s: State, pos: Point, rng: seq<LevelDraw>)
    requires Inv(s) && DrawsFit(rng) && !ClickRaises(s, pos)
    ensures Inv(Clicked(s, pos, rng))
  {
    var hinted := HintClicked(s, pos);
    assert Inv(hinted);
    if hinted.gameOver && Collides(TRY_AGAIN_RECT, pos) {
      TryAgainKeepsProgress(hinted, rng);
    }
  }

  /** An event that does not raise keeps the invariant. */
  lemma EventKeepsInv(s: State, e: Event, rng: seq<LevelDraw>)
    requires Inv(s) && DrawsFit(rng)
    ensures OnEvent(s, e, rng).0 != Raised ==> Inv(OnEvent(s, e, rng).1)
  {
    match e
    case Quit =>
    case KeyDown(key, unicode) => KeyKeepsInv(s, key, unicode, rng);
    case MouseDown(pos) =>
      if !ClickRaises(s, pos) {
        ClickKeepsInv(s, pos, rng);
      }
  }

  /** Every event keeps the invariant, whichever way the loop ends. */
  lemma {:induction false} HandledKeepsInv(s: State, events: seq<Event>, rngs: seq<seq<LevelDraw>>, i: nat)
    requires Inv(s) && |rngs| == |events| && AllDrawsFit(rngs) && i <= |events|
    ensures Inv(Handled(s, events, rngs, i).1)
    decreases |events| - i
  {
    if i < |events| {
      match events[i]
      case Quit =>
      case KeyDown(key, unicode) =>
        KeyKeepsInv(s, key, unicode, rngs[i]);
        HandledKeepsInv(KeyPressed(s, key, unicode, rngs[i]), events, rngs, i + 1);
      case MouseDown(pos) =>
        if !ClickRaises(s, pos) {
          ClickKeepsInv(s, pos, rngs[i]);
          HandledKeepsInv(Clicked(s, pos, rngs[i]), events, rngs, i + 1);
        }
    }
  }

  /**
   * A playing frame keeps the number of stars, adds ten points per captured star, adds one crash
   * per obstacle first touched, ends the game as soon as the fifth crash is reached, and opens
   * the riddle gate exactly when the level's threshold is met.
   */
  lemma PlayedFrame(s: State, f: FrameInput)
    requires Inv(s) && Playing(s) && FrameFits(s, f)
    ensures var r := Updated(s, f);
      var present := WithSpawn(s.obstacles, f.spawn);
      && |r.stars| == |s.stars|
      && r.score == s.score + STAR_POINTS * Captures(f.starHits)
      && r.crashes == s.crashes + NewHits(present, f.hazardHits)
      && HitCount(r.obstacles) == HitCount(s.obstacles) + (r.crashes - s.crashes)
      && (r.gameOver <==> r.crashes >= MAX_CRASHES)
      && (r.awaitingRiddle <==> r.score >= Threshold(LEVELS[s.levelIndex]))
      && (r.awaitingRiddle ==>
            && r.levelComplete && r.showHint && !r.hintShown && r.riddleAnswer == [] && r.wrongAttempts == 0
            && r.remainingRiddles == Refilled(s.remainingRiddles)
            && r.currentRiddle == Some(r.remainingRiddles[f.riddlePick]))
      && (!r.awaitingRiddle ==> r.currentRiddle.None? && r.remainingRiddles == s.remainingRiddles)
      && r.levelIndex == s.levelIndex && r.levelScores == s.levelScores
  {
    var present := WithSpawn(s.obstacles, f.spawn);
    KeptSpawnedSizes(s.stars, f.replacements, f.starHits);
    SpawnKeepsHitCount(s.obstacles, f.spawn);
    HitAccounting(present, f.hazardHits);
  }

  lemma PlayedKeepsInv(s: State, f: FrameInput)
    requires Inv(s) && Playing(s) && FrameFits(s, f)
    ensures Inv(Updated(s, f))
  {
    PlayedFrame(s, f);
    CaptureKeepsField(s.stars, f.starHits, f.replacements);
  }

  lemma UpdateKeepsInv(s: State, f: FrameInput)
    requires Inv(s) && FrameFits(s, f)
    ensures Inv(Updated(s, f))
  {
    if s.showWin {
    } else if s.showScoreboard {
      ScoreboardKeepsInv(s);
    } else if s.gameOver || s.awaitingRiddle || s.showLevelIntro {
      if s.showLevelIntro {
        IntroKeepsInv(s);
      }
    } else {
      PlayedKeepsInv(s, f);
    }
  }

  lemma ScoreboardKeepsInv(s: State)
    requires Inv(s) && s.showScoreboard
    ensures Inv(ScoreboardStep(s))
  {
    if s.finalUfoX + FINAL_UFO_STEP > WIDTH + 200 {
      if s.winTimer + 1 > WIN_DELAY {
      } else {
      }
    } else {
    }
  }

  lemma IntroKeepsInv(s: State)
    requires Inv(s)
    ensures Inv(IntroStep(s))
  {
    if s.x < WIDTH / 2 {
    } else {
    }
  }

  /** While the game is over or a riddle is pending, and the intro is done, frames change nothing. */
  lemma FrozenFrame(s: State, f: FrameInput)
    requires Inv(s) && FrameFits(s, f) && !s.showLevelIntro && (s.gameOver || s.awaitingRiddle)
    requires !s.showScoreboard
    ensures Updated(s, f) == s
  {
  }

  /** The win screen never moves the Restart button anywhere but its own place. */
  lemma DrawnKeepsInv(s: State)
    requires Inv(s)
    ensures Inv(Drawn(s))
    ensures Drawn(s).showWin ==> Drawn(s).restartRect == WIN_RESTART_RECT
  {
  }

  /** The state after `n` scoreboard frames. */
  function ScoreboardAfter(s: State, n: nat): State
    decreases n
  {
    if n == 0 then s else ScoreboardAfter(ScoreboardStep(s), n - 1)
  }

  /**
   * From the scoreboard's first frame, its craft needs 288 frames to pass `WIDTH + 200` and the
   * timer 121 more to pass `WIN_DELAY`: the win screen appears on frame 408 and not before.
   */
  lemma {:induction false} WinScreenTiming(s: State, n: nat)
    requires s.showScoreboard && !s.showWin && s.finalUfoX == FINAL_UFO_START && s.winTimer == 0
    ensures n < 408 ==> ScoreboardAfter(s, n).showScoreboard && !ScoreboardAfter(s, n).showWin
    ensures n == 408 ==> ScoreboardAfter(s, n).showWin && !ScoreboardAfter(s, n).showScoreboard
  {
    if n <= 408 {
      ScoreboardProgress(s, n);
    }
  }

  lemma {:induction false} ScoreboardProgress(s: State, n: nat)
    requires s.showScoreboard && !s.showWin && s.finalUfoX == FINAL_UFO_START && s.winTimer == 0
    requires n <= 408
    ensures var r := ScoreboardAfter(s, n);
      && r.finalUfoX == FINAL_UFO_START + FINAL_UFO_STEP * n
      && r.winTimer == (if n <= 287 then 0 else n - 287)
      && (r.showWin <==> n == 408) && (r.showScoreboard <==> n < 408)
      && r.levelScores == s.levelScores
  {
    if n > 0 {
      ScoreboardProgress(s, n - 1);
      ScoreboardAfterLast(s, n - 1);
    }
  }

  lemma {:induction false} ScoreboardAfterLast(s: State, n: nat)
    ensures ScoreboardAfter(s, n + 1) == ScoreboardStep(ScoreboardAfter(s, n))
    decreases n
  {
    if n > 0 {
      ScoreboardAfterLast(ScoreboardStep(s), n - 1);
    }
  }

  /** Every pass of the main loop that does not stop on an error keeps the invariant. */
  lemma TickKeepsInv(s: State, events: seq<Event>, rngs: seq<seq<LevelDraw>>, f: FrameInput)
    requires Inv(s) && |rngs| == |events| && AllDrawsFit(rngs)
    requires FrameFits(Handled(s, events, rngs, 0).1, f)
    ensures Tick(s, events, rngs, f).0 != Raised ==> Inv(Tick(s, events, rngs, f).1)
  {
    var t := Handled(s, events, rngs, 0).1;
    HandledKeepsInv(s, events, rngs, 0);
    UpdateKeepsInv(t, f);
    DrawnKeepsInv(Updated(t, f));
  }

  // ---------------------------------------------------------------------------------------------
  // The game object

  /** `Game`: the session object the main loop drives. */
  class Game {
    var levelIndex: nat
    /** The craft; `__init__` builds a new one, which this model does by re-initialising it. */
    const player: Ufo
    var obstacles: seq<Obstacle>
    var stars: seq<Star>
    var score: nat
    var gameOver: bool
    var levelComplete: bool
    var awaitingRiddle: bool
    var riddleAnswer: string
    var currentRiddle: Option<Riddle>
    var showHint: bool
    var hintShown: bool
    var showLevelIntro: bool
    var remainingRiddles: seq<Riddle>
    var levelScores: seq<nat>
    var wrongAttempts: nat
    var showScoreboard: bool
    var showWin: bool
    var winTimer: nat
    var finalUfoX: int
    var restartRect: Rect

    /** The game's fields, the craft's included, as a `State`. */
    ghost function Snapshot(): State
      reads this, player
    {
      State(levelIndex, player.x, player.y, player.crashes, obstacles, stars, score, gameOver,
        levelComplete, awaitingRiddle, riddleAnswer, currentRiddle, showHint, hintShown,
        showLevelIntro, remainingRiddles, levelScores, wrongAttempts, showScoreboard, showWin,
        winTimer, finalUfoX, restartRect)
    }

    ghost predicate Valid()
      reads this, player
    {
      Inv(Snapshot())
    }

    constructor (rng: seq<LevelDraw>)
      requires DrawsFit(rng)
      ensures Valid() && Snapshot() == Initial(rng)
    {
      player := new Ufo(ENTRY);
      new;
      Restart(rng);
    }

    /** `Game.__init__`, which the handlers also call to start a new session. */
    method Restart(rng: seq<LevelDraw>)
      requires DrawsFit(rng)
      modifies this, player
      ensures Valid() && Snapshot() == Initial(rng)
    {
      InitFields();
      ResetLevel(false, rng);
      assert Inv(Initial(rng));
    }

    /** The fields `__init__` sets before its call to `reset_level`. */
    method InitFields()
      modifies this, player
      ensures Snapshot() == Constructed()
    {
      player.Reinit(ENTRY);
      InitProgressStores();
      ClearRiddleStores();
      ClearEndingStores();
    }

    /** The progress fields as `__init__` sets them: first level, no energy, no ledger, full pool. */
    method InitProgressStores()
      modifies this`levelIndex, this`obstacles, this`stars, this`score, this`gameOver
      modifies this`showLevelIntro, this`remainingRiddles, this`levelScores
      ensures levelIndex == 0 && obstacles == [] && stars == [] && score == 0 && !gameOver
      ensures showLevelIntro && remainingRiddles == RIDDLES && levelScores == []
    {
      levelIndex := 0;
      obstacles := [];
      stars := [];
      score := 0;
      gameOver := false;
      showLevelIntro := true;
      remainingRiddles := RIDDLES;
      levelScores := [];
    }

    /** The ending screens' fields as `__init__` sets them. */
    method ClearEndingStores()
      modifies this`showScoreboard, this`showWin, this`winTimer, this`restartRect, this`finalUfoX
      ensures !showScoreboard && !showWin && winTimer == 0 && restartRect == RESTART_RECT
      ensures finalUfoX == FINAL_UFO_START
    {
      showScoreboard := false;
      showWin := false;
      winTimer := 0;
      restartRect := RESTART_RECT;
      finalUfoX := FINAL_UFO_START;
    }

    /** `Game.reset_level`. */
    method ResetLevel(preserveLevelIndex: bool, rng: seq<LevelDraw>)
      requires DrawsFit(rng)
      requires preserveLevelIndex ==> levelIndex < |LEVELS|
      modifies this`levelIndex, this`awaitingRiddle, this`levelComplete, player`x, player`y
      modifies this`showLevelIntro, this`wrongAttempts, this`riddleAnswer, this`currentRiddle
      modifies this`showHint, this`hintShown, this`obstacles, this`stars
      ensures Snapshot() == LevelReset(old(Snapshot()), preserveLevelIndex, rng)
    {
      if !preserveLevelIndex && levelIndex >= |LEVELS| {
        levelIndex := 0;
      }
      ClearRiddle();
      Stage(rng);
    }

    /** The riddle fields `__init__` and `reset_level` clear. */
    method ClearRiddle()
      modifies this`awaitingRiddle, this`levelComplete, this`wrongAttempts, this`riddleAnswer
      modifies this`currentRiddle, this`showHint, this`hintShown
      ensures Snapshot() == RiddleCleared(old(Snapshot()))
    {
      ClearRiddleStores();
    }

    /** The assignments of `ClearRiddle`, field by field. */
    method ClearRiddleStores()
      modifies this`awaitingRiddle, this`levelComplete, this`wrongAttempts, this`riddleAnswer
      modifies this`currentRiddle, this`showHint, this`hintShown
      ensures !awaitingRiddle && !levelComplete && wrongAttempts == 0 && riddleAnswer == []
      ensures currentRiddle.None? && !showHint && !hintShown
    {
      awaitingRiddle := false;
      levelComplete := false;
      wrongAttempts := 0;
      riddleAnswer := "";
      currentRiddle := None;
      showHint := false;
      hintShown := false;
    }

    /** The craft is placed at the entry point and the current level's field is laid out. */
    method Stage(rng: seq<LevelDraw>)
      requires DrawsFit(rng) && levelIndex < |LEVELS|
      modifies player`x, player`y, this`showLevelIntro, this`obstacles, this`stars
      ensures Snapshot() == Staged(old(Snapshot()), rng)
    {
      StageStores(rng);
    }

    /** The assignments of `Stage`, field by field. */
    method StageStores(rng: seq<LevelDraw>)
      requires DrawsFit(rng) && levelIndex < |LEVELS|
      modifies player`x, player`y, this`showLevelIntro, this`obstacles, this`stars
      ensures player.x == ENTRY.x && player.y == ENTRY.y && showLevelIntro
      ensures obstacles == rng[levelIndex].hazards && stars == rng[levelIndex].stars
    {
      player.x := ENTRY.x;
      player.y := ENTRY.y;
      showLevelIntro := true;
      obstacles := rng[levelIndex].hazards;
      stars := rng[levelIndex].stars;
    }

    /** `Game.check_riddle_answer`. */
    method CheckRiddleAnswer(rng: seq<LevelDraw>)
      requires DrawsFit(rng)
      modifies this, player
      ensures Snapshot() == AnswerChecked(old(Snapshot()), rng)
    {
      if currentRiddle.None? {
        return;
      }
      var answer := Normalize(currentRiddle.value.answer);
      var given := Normalize(riddleAnswer);
      if given == answer {
        PassLevel();
        if levelIndex >= |LEVELS| {
          showScoreboard := true;
        } else {
          ResetLevel(false, rng);
        }
      } else {
        MissRiddle();
      }
    }

    /** The bookkeeping of a correct answer: bank the energy, retire the riddle, advance the level. */
    method PassLevel()
      requires currentRiddle.Some?
      modifies this`levelScores, this`score, this`riddleAnswer, this`wrongAttempts, this`hintShown
      modifies this`showHint, this`remainingRiddles, this`currentRiddle, this`awaitingRiddle
      modifies this`levelIndex
      ensures Snapshot() == Passed(old(Snapshot()))
    {
      BankScore();
      RetireRiddle();
      levelIndex := levelIndex + 1;
    }

    /** The level's energy goes to the ledger, and the answer box and the hint are reset. */
    method BankScore()
      modifies this`levelScores, this`score, this`riddleAnswer, this`wrongAttempts, this`hintShown
      modifies this`showHint
      ensures Snapshot() == Banked(old(Snapshot()))
    {
      BankScoreStores();
    }

    /** The assignments of `BankScore`, field by field. */
    method BankScoreStores()
      modifies this`levelScores, this`score, this`riddleAnswer, this`wrongAttempts, this`hintShown
      modifies this`showHint
      ensures levelScores == old(levelScores) + [old(score)] && score == 0
      ensures riddleAnswer == [] && wrongAttempts == 0 && !hintShown && !showHint
    {
      levelScores := levelScores + [score];
      score := 0;
      riddleAnswer := "";
      wrongAttempts := 0;
      hintShown := false;
      showHint := false;
    }

    /** The solved riddle leaves the pool, which is refilled once empty, and the gate closes. */
    method RetireRiddle()
      requires currentRiddle.Some?
      modifies this`remainingRiddles, this`currentRiddle, this`awaitingRiddle
      ensures Snapshot() == Retired(old(Snapshot()))
    {
      RetireRiddleStores();
    }

    /** The assignments of `RetireRiddle`, field by field. */
    method RetireRiddleStores()
      requires currentRiddle.Some?
      modifies this`remainingRiddles, this`currentRiddle, this`awaitingRiddle
      ensures remainingRiddles == Refilled(RemoveFirst(old(remainingRiddles), old(currentRiddle).value))
      ensures currentRiddle.None? && !awaitingRiddle
    {
      remainingRiddles := RemoveFirst(remainingRiddles, currentRiddle.value);
      if remainingRiddles == [] {
        remainingRiddles := RIDDLES;
      }
      currentRiddle := None;
      awaitingRiddle := false;
    }

    /** A wrong answer. */
    method MissRiddle()
      modifies this`wrongAttempts, this`riddleAnswer, player`crashes, this`gameOver
      modifies this`hintShown, this`showHint
      ensures Snapshot() == Missed(old(Snapshot()))
    {
      MissRiddleStores();
    }

    /** The assignments of a wrong answer, field by field. */
    method MissRiddleStores()
      modifies this`wrongAttempts, this`riddleAnswer, player`crashes, this`gameOver
      modifies this`hintShown, this`showHint
      ensures wrongAttempts == old(wrongAttempts) + 1 && riddleAnswer == []
      ensures player.crashes == old(player.crashes) + 1
      ensures gameOver == (old(gameOver) || player.crashes >= MAX_CRASHES)
      ensures hintShown == (old(hintShown) || wrongAttempts >= HINT_AFTER)
      ensures showHint == (old(showHint) && wrongAttempts < HINT_AFTER)
    {
      wrongAttempts := wrongAttempts + 1;
      riddleAnswer := "";
      player.crashes := player.crashes + 1;
      if player.crashes >= MAX_CRASHES {
        gameOver := true;
      }
      if wrongAttempts >= HINT_AFTER {
        hintShown := true;
        showHint := false;
      }
    }

    /** A KEYDOWN event. */
    method OnKey(key: Key, unicode: string, rng: seq<LevelDraw>)
      requires DrawsFit(rng)
      modifies this, player
      ensures Snapshot() == KeyPressed(old(Snapshot()), key, unicode, rng)
    {
      if awaitingRiddle {
        if key == Return {
          CheckRiddleAnswer(rng);
        } else if key == Backspace {
          riddleAnswer := DropLast(riddleAnswer);
        } else if |unicode| == 1 {
          riddleAnswer := riddleAnswer + unicode;
        }
      } else if gameOver {
        if key == KeyR {
          Restart(rng);
        }
      }
    }

    /** The Try Again button. */
    method TryAgain(rng: seq<LevelDraw>)
      requires DrawsFit(rng) && levelIndex < |LEVELS|
      modifies this, player
      ensures Snapshot() == TriedAgain(old(Snapshot()), rng)
    {
      score := 0;
      player.crashes := 0;
      ResetLevel(true, rng);
      gameOver := false;
    }

    /** A MOUSEBUTTONDOWN event: the hint button, then Try Again and Restart, then the win screen. */
    method OnClick(pos: Point, rng: seq<LevelDraw>) returns (flow: Flow)
      requires DrawsFit(rng)
      modifies this, player
      ensures flow == (if ClickRaises(old(Snapshot()), pos) then Raised else Running)
      ensures flow == Running ==> Snapshot() == Clicked(old(Snapshot()), pos, rng)
    {
      ClickHint(pos);
      if gameOver {
        if Collides(TRY_AGAIN_RECT, pos) {
          if levelIndex >= |LEVELS| {
            // `reset_level` indexes `levels` out of range
            return Raised;
          }
          TryAgain(rng);
        }
        if Collides(restartRect, pos) {
          Restart(rng);
        }
      }
      if showWin {
        if Collides(restartRect, pos) {
          Restart(rng);
        }
      }
      return Running;
    }

    /** The hint button. */
    method ClickHint(pos: Point)
      modifies this`hintShown, this`showHint
      ensures Snapshot() == HintClicked(old(Snapshot()), pos)
    {
      if awaitingRiddle && currentRiddle.Some? {
        if showHint && Collides(HINT_RECT, pos) {
          hintShown, showHint := true, false;
        }
      }
    }

    /** `Game.handle_events`: the events of one frame, in order, until QUIT or an error. */
    method HandleEvents(events: seq<Event>, rngs: seq<seq<LevelDraw>>) returns (flow: Flow)
      requires Valid() && |rngs| == |events| && AllDrawsFit(rngs)
      modifies this, player
      ensures flow == Handled(old(Snapshot()), events, rngs, 0).0
      ensures flow != Raised ==> Valid() && Snapshot() == Handled(old(Snapshot()), events, rngs, 0).1
    {
      var i := 0;
      while i < |events|
        invariant 0 <= i <= |events|
        invariant Valid()
        invariant Handled(old(Snapshot()), events, rngs, 0) == Handled(Snapshot(), events, rngs, i)
        decreases |events| - i
      {
        flow := Dispatch(events[i], rngs[i]);
        if flow != Running {
          return;
        }
        i := i + 1;
      }
      return Running;
    }

    /** One event of `Game.handle_events`. */
    method Dispatch(e: Event, rng: seq<LevelDraw>) returns (flow: Flow)
      requires Valid() && DrawsFit(rng)
      modifies this, player
      ensures flow == OnEvent(old(Snapshot()), e, rng).0
      ensures flow != Raised ==> Valid() && Snapshot() == OnEvent(old(Snapshot()), e, rng).1
    {
      EventKeepsInv(Snapshot(), e, rng);
      match e {
        case Quit =>
          return Exited;
        case KeyDown(key, unicode) =>
          OnKey(key, unicode, rng);
          return Running;
        case MouseDown(pos) =>
          flow := OnClick(pos, rng);
      }
    }

    /** `Game.update`: one frame of the win screen, the scoreboard, the intro, or play. */
    method Update(f: FrameInput)
      requires Valid() && FrameFits(Snapshot(), f)
      modifies this, player
      ensures Valid() && Snapshot() == Updated(old(Snapshot()), f)
    {
      UpdateKeepsInv(Snapshot(), f);
      if showWin {
        return;
      }
      if showScoreboard {
        AnimateScoreboard();
        return;
      }
      if gameOver || awaitingRiddle || showLevelIntro {
        if showLevelIntro {
          EnterLevel();
        }
        return;
      }
      Play(f);
    }

    /** A frame of the final scoreboard. */
    method AnimateScoreboard()
      modifies this`finalUfoX, this`winTimer, this`showScoreboard, this`showWin
      ensures Snapshot() == ScoreboardStep(old(Snapshot()))
    {
      AnimateScoreboardStores();
    }

    /** The assignments of a scoreboard frame, field by field. */
    method AnimateScoreboardStores()
      modifies this`finalUfoX, this`winTimer, this`showScoreboard, this`showWin
      ensures finalUfoX == old(finalUfoX) + FINAL_UFO_STEP
      ensures winTimer == (if finalUfoX > WIDTH + 200 then old(winTimer) + 1 else old(winTimer))
      ensures showWin == (old(showWin) || (finalUfoX > WIDTH + 200 && winTimer > WIN_DELAY))
      ensures showScoreboard == (old(showScoreboard) && !(finalUfoX > WIDTH + 200 && winTimer > WIN_DELAY))
    {
      finalUfoX := finalUfoX + FINAL_UFO_STEP;
      if finalUfoX > WIDTH + 200 {
        winTimer := winTimer + 1;
        if winTimer > WIN_DELAY {
          showScoreboard := false;
          showWin := true;
        }
      }
    }

    /** A frame of the level intro. */
    method EnterLevel()
      modifies player`x, this`showLevelIntro
      ensures Snapshot() == IntroStep(old(Snapshot()))
    {
      if player.x < WIDTH / 2 {
        player.x := player.x + INTRO_STEP;
      } else {
        showLevelIntro := false;
      }
    }

    /** A playing frame of `Game.update`. */
    method Play(f: FrameInput)
      requires Playing(Snapshot()) && levelIndex < |LEVELS| && FrameFits(Snapshot(), f)
      modifies this, player
      ensures Snapshot() == Played(old(Snapshot()), f)
    {
      Fly(f);
      if score >= Threshold(LEVELS[levelIndex]) && !awaitingRiddle {
        OpenGate(f.riddlePick);
      }
    }

    /** The flight: move the craft, add the spawned obstacle, count the crashes, capture the stars. */
    method Fly(f: FrameInput)
      requires FrameFitsField(f, obstacles, stars, Point(player.x, player.y))
      modifies player`x, player`y, player`crashes, this`obstacles, this`gameOver, this`stars, this`score
      ensures Snapshot() == Flown(old(Snapshot()), f)
    {
      player.Move(f.keys);
      if f.spawn.Some? {
        obstacles := obstacles + [f.spawn.value];
      }
      CountCrashes(f.hazardHits);
      CollectStars(f.starHits, f.replacements);
    }

    /** The collision loop of `Game.update`. */
    method CountCrashes(hits: seq<bool>)
      requires |hits| == |obstacles|
      modifies this`obstacles, player`crashes, this`gameOver
      ensures Snapshot() == Crashed(old(Snapshot()), hits)
    {
      var crashes, over;
      obstacles, crashes, over := ResolveCrashes(obstacles, hits, player.crashes, gameOver);
      player.crashes, gameOver := crashes, over;
    }

    /** The star loop of `Game.update`. */
    method CollectStars(hits: seq<bool>, replacements: seq<Star>)
      requires |hits| == |stars| == |replacements|
      modifies this`stars, this`score
      ensures Snapshot() == Collected(old(Snapshot()), hits, replacements)
    {
      stars, score := CaptureStars(stars, hits, replacements, score);
    }

    /** The riddle gate opens on a riddle picked from the (refilled) pool. */
    method OpenGate(pick: nat)
      requires pick < |GatePool(Snapshot())|
      modifies this`levelComplete, this`awaitingRiddle, this`riddleAnswer, this`wrongAttempts
      modifies this`showHint, this`hintShown, this`remainingRiddles, this`currentRiddle
      ensures Snapshot() == GateOpened(old(Snapshot()), pick)
    {
      OpenGateStores(pick);
    }

    /** The assignments of the gate opening, field by field. */
    method OpenGateStores(pick: nat)
      requires pick < |Refilled(remainingRiddles)|
      modifies this`levelComplete, this`awaitingRiddle, this`riddleAnswer, this`wrongAttempts
      modifies this`showHint, this`hintShown, this`remainingRiddles, this`currentRiddle
      ensures levelComplete && awaitingRiddle && riddleAnswer == [] && wrongAttempts == 0
      ensures showHint && !hintShown
      ensures remainingRiddles == Refilled(old(remainingRiddles))
      ensures currentRiddle == Some(remainingRiddles[pick])
    {
      levelComplete := true;
      awaitingRiddle := true;
      riddleAnswer := "";
      wrongAttempts := 0;
      showHint := true;
      hintShown := false;
      if remainingRiddles == [] {
        remainingRiddles := RIDDLES;
      }
      currentRiddle := Some(remainingRiddles[pick]);
    }

    /** The part of `Game.draw` that changes the game: the win screen's Restart button. */
    method Draw()
      modifies this`restartRect
      ensures Snapshot() == Drawn(old(Snapshot()))
    {
      if showWin {
        restartRect := WIN_RESTART_RECT;
      }
    }

    /** One pass of the main loop. */
    method RunFrame(events: seq<Event>, rngs: seq<seq<LevelDraw>>, f: FrameInput) returns (flow: Flow)
      requires Valid() && |rngs| == |events| && AllDrawsFit(rngs)
      requires FrameFits(Handled(Snapshot(), events, rngs, 0).1, f)
      modifies this, player
      ensures flow == Tick(old(Snapshot()), events, rngs, f).0
      ensures flow != Raised ==> Valid() && Snapshot() == Tick(old(Snapshot()), events, rngs, f).1
    {
      flow := HandleEvents(events, rngs);
      if flow == Raised {
        return;
      }
      Update(f);
      DrawnKeepsInv(Snapshot());
      Draw();
    }
  }
}
