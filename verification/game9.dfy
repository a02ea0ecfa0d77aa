/**
 * An early revision of the game (`game9.py`). It has three levels and nine riddles drawn without
 * replacement. A wrong answer shows Restart and Try Again buttons, Try Again steps back one
 * level, each level opens with its name shown for three seconds, and no obstacles are spawned
 * during play.
 *
 * `State` is the logical state of `Game`. The functions below are its transitions, and `Inv` is
 * what they keep. `Game` is the class itself: each method changes its fields exactly as the
 * matching function says.
 */
module Game9 {
  import opened Basics
  import opened Arena
  import opened Stars
  import opened Hazards
  import opened Riddles
  import opened Session

  const LEVELS: seq<Level> := [
    Level("Pink City", 10, 5, 2),
    Level("Blue Space", 12, 8, 3),
    Level("Ocean Block", 15, 12, 4)]

  const RIDDLES: seq<Riddle> := [
    Riddle("I speak without a mouth and hear without ears. What am I?", "echo"),
    Riddle("I\U{2019}m tall when I\U{2019}m young, and short when I\U{2019}m old. What am I?", "candle"),
    Riddle("What has keys but can\U{2019}t open locks?", "piano"),
    Riddle("The more of me you take, the more you leave behind. What am I?", "footsteps"),
    Riddle("I have cities but no houses, forests but no trees, and water but no fish. What am I?", "map"),
    Riddle("What can run but never walks, has a mouth but never talks?", "river"),
    Riddle("I am always hungry and will die if not fed, but whatever I touch will soon turn red. What am I?", "fire"),
    Riddle("I can fly without wings, cry without eyes. What am I?", "cloud"),
    Riddle("The more you take away from me, the bigger I get. What am I?", "hole")]

  /** Where `UFO()` starts and where `reset_level` puts the craft back. */
  const CENTER: Point := Point(WIDTH / 2, HEIGHT / 2)
  /** The buttons `show_buttons` installs after a wrong answer. */
  const ANSWER_BUTTONS: seq<Button> := [
    Button(Rect(WIDTH / 2 - 100, HEIGHT / 2 + 50, 180, 40), Restart),
    Button(Rect(WIDTH / 2 - 100, HEIGHT / 2 + 100, 180, 40), TryAgain)]

  datatype State = State(
    levelIndex: nat,
    x: int,
    y: int,
    crashes: nat,
    obstacles: seq<Obstacle>,
    stars: seq<Star>,
    score: nat,
    gameOver: bool,
    levelComplete: bool,
    awaitingRiddle: bool,
    riddleAnswer: string,
    currentRiddle: Option<Riddle>,
    buttons: seq<Button>,
    remainingRiddles: seq<Riddle>,
    levelScores: seq<nat>,
    wrongAttempts: nat,
    showingLevelName: bool)

  /**
   * The random draws of one `reset_level` for each level: its obstacles and its stars around the
   * centre. A new session's five stars are those of the first level's draw.
   */
  predicate DrawsFit(rng: seq<LevelDraw>)
  {
    |rng| == |LEVELS| &&
    forall i :: 0 <= i < |rng| ==>
      DrawFits(rng[i], LEVELS[i].rocks, LEVELS[i].blackholes, StarCount(i), CENTER)
  }

  /**
   * The ledger: one entry per correct answer, each a multiple of ten, and those of the three
   * levels at least the level's threshold.
   */
  predicate LedgerOk(levelIndex: nat, levelScores: seq<nat>, score: nat)
  {
    && |levelScores| == levelIndex
    && (forall k :: 0 <= k < |levelScores| ==>
          levelScores[k] % STAR_POINTS == 0 && (k < |LEVELS| ==> levelScores[k] >= Threshold(LEVELS[k])))
    && score % STAR_POINTS == 0
  }

  /** Past the last level the game is over; a level name is only shown for a real level, gate closed. */
  predicate ProgressOk(levelIndex: nat, gameOver: bool, awaitingRiddle: bool, showingLevelName: bool)
  {
    && (levelIndex >= |LEVELS| ==> gameOver)
    && (showingLevelName ==> levelIndex < |LEVELS| && !awaitingRiddle)
  }

  /** The riddles pending or still in the pool. */
  function Outstanding(currentRiddle: Option<Riddle>, remainingRiddles: seq<Riddle>): multiset<Riddle>
  {
    multiset(remainingRiddles) + (if currentRiddle.Some? then multiset{currentRiddle.value} else multiset{})
  }

  /**
   * The gate is open once the threshold is met, and a pending riddle comes with it. No riddle is
   * outstanding twice: the pool holds no repeats and the pending riddle has left it.
   */
  predicate GateOk(levelIndex: nat, score: nat, levelComplete: bool, awaitingRiddle: bool,
    currentRiddle: Option<Riddle>, remainingRiddles: seq<Riddle>)
  {
    && levelComplete == awaitingRiddle
    && (currentRiddle.Some? ==> awaitingRiddle)
    && (awaitingRiddle && levelIndex < |LEVELS| ==> score >= Threshold(LEVELS[levelIndex]))
    && Unrepeated(Outstanding(currentRiddle, remainingRiddles))
  }

  /** The buttons on screen are none or those of a wrong answer. */
  predicate ButtonsOk(buttons: seq<Button>)
  {
    buttons == [] || buttons == ANSWER_BUTTONS
  }

  /** Every flagged obstacle was counted as a crash. */
  predicate CrashesOk(crashes: nat, obstacles: seq<Obstacle>)
  {
    HitCount(obstacles) <= crashes
  }

  /** The stars on screen: as many as the level places, all inside the star field. */
  predicate StarsOk(levelIndex: nat, stars: seq<Star>)
  {
    && (levelIndex < |LEVELS| ==> |stars| == StarCount(levelIndex))
    && AllInField(stars)
  }

  /** What every state the game reaches satisfies. */
  ghost predicate Inv(s: State)
  {
    && LedgerOk(s.levelIndex, s.levelScores, s.score)
    && ProgressOk(s.levelIndex, s.gameOver, s.awaitingRiddle, s.showingLevelName)
    && GateOk(s.levelIndex, s.score, s.levelComplete, s.awaitingRiddle, s.currentRiddle, s.remainingRiddles)
    && ButtonsOk(s.buttons)
    && CrashesOk(s.crashes, s.obstacles)
    && StarsOk(s.levelIndex, s.stars)
  }

  /**
   * `Game.__init__`: a new session at the first level, with no ledger, the full riddle pool, five
   * stars, no obstacles, and the first level's name on screen.
   */
  function Initial(rng: seq<LevelDraw>): (s: State)
    requires DrawsFit(rng)
    ensures s.levelIndex == 0 && s.levelScores == [] && s.score == 0 && s.crashes == 0
    ensures s.obstacles == [] && StarsPlaced(s.stars, StarCount(0), CENTER)
    ensures s.remainingRiddles == RIDDLES && s.currentRiddle.None? && s.buttons == []
    ensures !s.gameOver && !s.awaitingRiddle && !s.levelComplete && s.wrongAttempts == 0
    ensures s.showingLevelName && Point(s.x, s.y) == CENTER
  {
    State(
      levelIndex := 0, x := CENTER.x, y := CENTER.y, crashes := 0, obstacles := [],
      stars := rng[0].stars, score := 0, gameOver := false, levelComplete := false,
      awaitingRiddle := false, riddleAnswer := "", currentRiddle := None, buttons := [],
      remainingRiddles := RIDDLES, levelScores := [], wrongAttempts := 0, showingLevelName := true)
  }

  /** The riddles of the game are pairwise distinct. */
  lemma RiddlesDistinct()
    ensures forall i, j :: 0 <= i < j < |RIDDLES| ==> RIDDLES[i] != RIDDLES[j]
  {
    forall i, j | 0 <= i < j < |RIDDLES|
      ensures RIDDLES[i] != RIDDLES[j]
    {
      assert RIDDLES[i].answer != RIDDLES[j].answer;
    }
  }

  /** The full pool holds no riddle twice. */
  lemma FullPoolUnrepeated()
    ensures Unrepeated(Outstanding(None, RIDDLES))
  {
    RiddlesDistinct();
    DistinctUnrepeated(RIDDLES);
    assert Outstanding(None, RIDDLES) == multiset(RIDDLES);
  }

  /** A new session satisfies the invariant: in particular no riddle is in the pool twice. */
  lemma FreshGame(rng: seq<LevelDraw>)
    requires DrawsFit(rng)
    ensures Inv(Initial(rng))
  {
    FullPoolUnrepeated();
  }

  /** The gate closed, no riddle pending, no answer typed, no buttons, no misses, the game not over. */
  function Cleared(s: State): State
  {
    s.(awaitingRiddle := false, levelComplete := false, riddleAnswer := "", currentRiddle := None,
       buttons := [], gameOver := false, wrongAttempts := 0)
  }

  /** The current level's field is laid out around the centre and its name is shown. */
  function Staged(s: State, rng: seq<LevelDraw>): State
    requires DrawsFit(rng) && s.levelIndex < |LEVELS|
  {
    s.(x := CENTER.x, y := CENTER.y, obstacles := rng[s.levelIndex].hazards,
       stars := rng[s.levelIndex].stars, showingLevelName := true)
  }

  /**
   * `Game.reset_level`: rebuild the current level. It keeps the energy, the crashes, the ledger
   * and the pool.
   */
  function LevelReset(s: State, rng: seq<LevelDraw>): (r: State)
    requires DrawsFit(rng) && s.levelIndex < |LEVELS|
    ensures r.levelIndex == s.levelIndex
    ensures LevelHazards(r.obstacles, LEVELS[r.levelIndex].rocks, LEVELS[r.levelIndex].blackholes)
    ensures StarsPlaced(r.stars, StarCount(r.levelIndex), CENTER)
    ensures Point(r.x, r.y) == CENTER && r.showingLevelName
    ensures !r.awaitingRiddle && !r.levelComplete && r.currentRiddle.None? && r.riddleAnswer == []
    ensures r.buttons == [] && !r.gameOver && r.wrongAttempts == 0
    ensures r.score == s.score && r.crashes == s.crashes
    ensures r.levelScores == s.levelScores && r.remainingRiddles == s.remainingRiddles
  {
    Staged(Cleared(s), rng)
  }

  /** Whether Enter passes the riddle: one is pending and the typed answer, lower-cased, is its answer. */
  predicate Matches(s: State)
  {
    s.currentRiddle.Some? && Lower(s.riddleAnswer) == s.currentRiddle.value.answer
  }

  /** `Game.next_level`: bank, advance, and either end the game or enter the next level afresh. */
  function Advanced(s: State, rng: seq<LevelDraw>): State
    requires DrawsFit(rng)
  {
    var advanced := s.(levelScores := s.levelScores + [s.score], levelIndex := s.levelIndex + 1);
    if advanced.levelIndex >= |LEVELS| then advanced.(gameOver := true)
    else LevelReset(advanced.(score := 0, crashes := 0), rng)
  }

  /** A wrong answer: one more miss, and the Restart and Try Again buttons. */
  function Missed(s: State): State
  {
    s.(wrongAttempts := s.wrongAttempts + 1, buttons := ANSWER_BUTTONS)
  }

  /** Enter while a riddle is awaited. */
  function AnswerChecked(s: State, rng: seq<LevelDraw>): State
    requires DrawsFit(rng)
  {
    if Matches(s) then Advanced(s, rng) else Missed(s)
  }

  /** The KEYDOWN branch of `Game.handle_events`. */
  function KeyPressed(s: State, key: Key, unicode: string, rng: seq<LevelDraw>): State
    requires DrawsFit(rng)
  {
    if s.awaitingRiddle then
      match key
      case Return => AnswerChecked(s, rng)
      case Backspace => s.(riddleAnswer := DropLast(s.riddleAnswer))
      case _ => s.(riddleAnswer := s.riddleAnswer + unicode)
    else if s.gameOver && key == KeyR then Initial(rng)
    else s
  }

  /** Try Again's bookkeeping: one level back, its ledger entry dropped, no energy. */
  function SteppedBack(s: State): State
    requires s.levelIndex > 0
  {
    s.(levelIndex := s.levelIndex - 1, levelScores := DropLast(s.levelScores), score := 0)
  }

  /** Try Again: replay the previous level. */
  function TriedAgain(s: State, rng: seq<LevelDraw>): State
    requires DrawsFit(rng) && 0 < s.levelIndex <= |LEVELS|
  {
    LevelReset(SteppedBack(s), rng)
  }

  /**
   * The MOUSEBUTTONDOWN branch of `Game.handle_events` from the `i`-th button of `buttons` on:
   * the list the loop started on, even when a button replaces the game's list. Try Again past
   * the last level makes `reset_level` index `levels` out of range, and the game stops with an
   * `IndexError`.
   */
  function Pressed(s: State, buttons: seq<Button>, pos: Point, rng: seq<LevelDraw>, i: nat): (Flow, State)
    requires DrawsFit(rng) && i <= |buttons|
    decreases |buttons| - i
  {
    if i == |buttons| then (Running, s)
    else if !Collides(buttons[i].rect, pos) then Pressed(s, buttons, pos, rng, i + 1)
    else if buttons[i].action.Restart? then Pressed(Initial(rng), buttons, pos, rng, i + 1)
    else if s.levelIndex == 0 then Pressed(s, buttons, pos, rng, i + 1)
    else if s.levelIndex > |LEVELS| then (Raised, s)
    else Pressed(TriedAgain(s, rng), buttons, pos, rng, i + 1)
  }

  /** One event of `Game.handle_events`: how the loop goes on, and the state after the event. */
  function OnEvent(s: State, e: Event, rng: seq<LevelDraw>): (Flow, State)
    requires DrawsFit(rng)
  {
    match e
    case Quit => (Exited, s)
    case KeyDown(key, unicode) => (Running, KeyPressed(s, key, unicode, rng))
    case MouseDown(pos) => Pressed(s, s.buttons, pos, rng, 0)
  }

  /** Every reset a run of events may make has draws that fit the levels. */
  predicate AllDrawsFit(rngs: seq<seq<LevelDraw>>)
  {
    forall k :: 0 <= k < |rngs| ==> DrawsFit(rngs[k])
  }

  /** `Game.handle_events` over the events of one frame from the `i`-th on. */
  function Handled(s: State, events: seq<Event>, rngs: seq<seq<LevelDraw>>, i: nat): (Flow, State)
    requires |rngs| == |events| && AllDrawsFit(rngs) && i <= |events|
    decreases |events| - i
  {
    if i == |events| then (Running, s)
    else
      var (flow, t) := OnEvent(s, events[i], rngs[i]);
      if flow != Running then (flow, t) else Handled(t, events, rngs, i + 1)
  }

  /** Whether a frame of `Game.update` moves the craft and plays the level. */
  predicate Playing(s: State)
  {
    !s.gameOver && !s.levelComplete && !s.awaitingRiddle && !s.showingLevelName
  }

  /** A frame's inputs fit the state they are played on; this revision spawns no obstacles. */
  predicate FrameFits(s: State, f: FrameInput)
  {
    Playing(s) ==>
      && f.spawn.None?
      && FrameFitsField(f, s.obstacles, s.stars, Point(s.x, s.y))
      && (s.remainingRiddles != [] ==> f.riddlePick < |s.remainingRiddles|)
  }

  /** The collision loop: obstacles touched for the first time are flagged and counted as crashes. */
  function Crashed(s: State, hits: seq<bool>): State
    requires |hits| == |s.obstacles|
  {
    var crashes := s.crashes + NewHits(s.obstacles, hits);
    s.(obstacles := MarkHits(s.obstacles, hits), crashes := crashes,
      gameOver := s.gameOver || (crashes > s.crashes && crashes >= MAX_CRASHES))
  }

  /** The star loop: captured stars score and are replaced by new ones at the end of the list. */
  function Collected(s: State, hits: seq<bool>, replacements: seq<Star>): State
    requires |hits| == |s.stars| == |replacements|
  {
    s.(stars := Kept(s.stars, hits) + Spawned(replacements, hits),
      score := s.score + STAR_POINTS * Captures(hits))
  }

  /** The flight part of a playing frame: move, crash and capture. */
  function Flown(s: State, f: FrameInput): State
    requires |f.hazardHits| == |s.obstacles| && |f.starHits| == |s.stars| == |f.replacements|
  {
    var at := Moved(Point(s.x, s.y), f.keys);
    Collected(Crashed(s.(x := at.x, y := at.y), f.hazardHits), f.starHits, f.replacements)
  }

  /** The level is complete: the gate opens with an empty answer. */
  function Completed(s: State): State
  {
    s.(levelComplete := true, awaitingRiddle := true, riddleAnswer := "")
  }

  /** `random.choice` then `list.remove`: the picked riddle becomes pending and leaves the pool. */
  function RiddleDrawn(s: State, pick: nat): State
    requires pick < |s.remainingRiddles|
  {
    var riddle := s.remainingRiddles[pick];
    s.(currentRiddle := Some(riddle), remainingRiddles := RemoveFirst(s.remainingRiddles, riddle))
  }

  /** The riddle gate opens; with an empty pool no riddle is pending. */
  function GateOpened(s: State, pick: nat): State
    requires s.remainingRiddles != [] ==> pick < |s.remainingRiddles|
  {
    var t := Completed(s);
    if t.remainingRiddles != [] then RiddleDrawn(t, pick) else t.(currentRiddle := None)
  }

  /** A playing frame: the flight, then the riddle gate opens once the level's threshold is met. */
  function Played(s: State, f: FrameInput): State
    requires Playing(s) && s.levelIndex < |LEVELS| && FrameFits(s, f)
  {
    var t := Flown(s, f);
    if t.score >= Threshold(LEVELS[t.levelIndex]) then GateOpened(t, f.riddlePick) else t
  }

  /** `Game.update`: nothing while the game is over, the gate is open or the level name is shown. */
  function Updated(s: State, f: FrameInput): State
    requires Inv(s) && FrameFits(s, f)
  {
    if !Playing(s) then s else Played(s, f)
  }

  /**
   * What `Game.draw` changes in the state: the level name goes away once it has been shown for
   * three seconds, which `elapsed` tells.
   */
  function Painted(s: State, elapsed: bool): State
  {
    if s.showingLevelName && elapsed then s.(showingLevelName := false) else s
  }

  /**
   * Whether `Game.draw` fails on the final scoreboard: it names the level of every ledger entry,
   * and an entry past the last level has none, so `levels[idx]` raises an `IndexError`.
   */
  predicate ScoreboardFails(s: State)
  {
    !s.showingLevelName && s.gameOver && s.levelIndex >= |LEVELS| && |s.levelScores| > |LEVELS|
  }

  /**
   * One pass of the main loop: the frame's events, then `update`, then `draw`. The frame is
   * finished even when an event was QUIT; the loop ends afterwards.
   */
  function Tick(s: State, events: seq<Event>, rngs: seq<seq<LevelDraw>>, f: FrameInput, elapsed: bool): (Flow, State)
    requires Inv(s) && |rngs| == |events| && AllDrawsFit(rngs)
    requires FrameFits(Handled(s, events, rngs, 0).1, f)
  {
    var (flow, t) := Handled(s, events, rngs, 0);
    if flow == Raised then (Raised, t)
    else
      HandledKeepsInv(s, events, rngs, 0);
      var u := Updated(t, f);
      if ScoreboardFails(u) then (Raised, u) else (flow, Painted(u, elapsed))
  }

  // ---------------------------------------------------------------------------------------------
  // Properties of the transitions

  /** A correct answer before the last level banks the energy and enters the next level afresh. */
  lemma CorrectAnswerNextLevel(s: State, rng: seq<LevelDraw>)
    requires Inv(s) && DrawsFit(rng) && s.awaitingRiddle && Matches(s) && s.levelIndex + 1 < |LEVELS|
    ensures var r := AnswerChecked(s, rng);
      && r.levelIndex == s.levelIndex + 1
      && r.levelScores == s.levelScores + [s.score]
      && |r.levelScores| == r.levelIndex
      && r.score == 0 && r.crashes == 0 && r.wrongAttempts == 0
      && !r.gameOver && !r.awaitingRiddle && r.currentRiddle.None? && r.buttons == []
      && r.showingLevelName && StarsPlaced(r.stars, StarCount(r.levelIndex), CENTER)
  {
  }

  /**
   * A correct answer at the last level ends the game and keeps the energy and the crashes. The
   * riddle stays pending, so entering it again adds another entry and moves on once more.
   */
  lemma CorrectAnswerLastLevel(s: State, rng: seq<LevelDraw>)
    requires Inv(s) && DrawsFit(rng) && s.awaitingRiddle && Matches(s) && s.levelIndex + 1 >= |LEVELS|
    ensures var r := AnswerChecked(s, rng);
      && r.levelIndex == s.levelIndex + 1
      && r.levelScores == s.levelScores + [s.score]
      && |r.levelScores| == r.levelIndex
      && r.gameOver && r.score == s.score && r.crashes == s.crashes
      && r.awaitingRiddle && r.currentRiddle == s.currentRiddle && Matches(r)
  {
  }

  /**
   * After the win the riddle stays pending, so entering the same answer again adds a fourth
   * ledger entry, and drawing the scoreboard then fails.
   */
  lemma AnswerAgainAfterWin(s: State, rng: seq<LevelDraw>)
    requires Inv(s) && DrawsFit(rng) && s.awaitingRiddle && Matches(s) && s.levelIndex + 1 == |LEVELS|
    ensures var r := AnswerChecked(s, rng);
      && !ScoreboardFails(r) && r.awaitingRiddle && Matches(r)
      && ScoreboardFails(AnswerChecked(r, rng))
  {
  }

  /** A wrong answer only counts the miss and shows the buttons: the answer and the crashes stay. */
  lemma WrongAnswerShowsButtons(s: State, rng: seq<LevelDraw>)
    requires DrawsFit(rng) && s.awaitingRiddle && !Matches(s)
    ensures var r := KeyPressed(s, Return, "", rng);
      && r.wrongAttempts == s.wrongAttempts + 1
      && r.buttons == ANSWER_BUTTONS
      && r.riddleAnswer == s.riddleAnswer && r.crashes == s.crashes && r.gameOver == s.gameOver
      && r.awaitingRiddle && r.currentRiddle == s.currentRiddle
      && r.levelIndex == s.levelIndex && r.levelScores == s.levelScores && r.score == s.score
  {
  }

  /** With no riddle pending, no key can pass the gate: the game stays at its level. */
  lemma EmptyPoolBlocksGate(s: State, key: Key, unicode: string, rng: seq<LevelDraw>)
    requires DrawsFit(rng) && s.awaitingRiddle && s.currentRiddle.None?
    ensures var r := KeyPressed(s, key, unicode, rng);
      && r.levelIndex == s.levelIndex && r.levelScores == s.levelScores
      && r.awaitingRiddle && r.currentRiddle.None?
  {
  }

  /**
   * Try Again steps back one level: the ledger loses its last entry, so it again has one entry
   * per level before the current one, and the level is rebuilt with no energy and no misses.
   */
  lemma TryAgainStepsBack(s: State, rng: seq<LevelDraw>)
    requires Inv(s) && DrawsFit(rng) && 0 < s.levelIndex <= |LEVELS|
    ensures var r := TriedAgain(s, rng);
      && Inv(r)
      && r.levelIndex == s.levelIndex - 1
      && r.levelScores == s.levelScores[..r.levelIndex]
      && |r.levelScores| == r.levelIndex
      && r.score == 0 && !r.gameOver && r.crashes == s.crashes && r.wrongAttempts == 0
      && r.showingLevelName && !r.awaitingRiddle && r.buttons == []
  {
    var r := TriedAgain(s, rng);
    assert s.levelScores == DropLast(s.levelScores) + [s.levelScores[|s.levelScores| - 1]];
    HitCountBound(r.obstacles);
    UnrepeatedSub(Outstanding(s.currentRiddle, s.remainingRiddles), Outstanding(None, s.remainingRiddles));
  }

  /** A click on Restart starts a new session and nothing else. */
  lemma RestartButton(s: State, pos: Point, rng: seq<LevelDraw>)
    requires DrawsFit(rng) && Collides(ANSWER_BUTTONS[0].rect, pos)
    ensures Pressed(s, ANSWER_BUTTONS, pos, rng, 0) == (Running, Initial(rng))
  {
    assert !Collides(ANSWER_BUTTONS[1].rect, pos);
    assert Pressed(Initial(rng), ANSWER_BUTTONS, pos, rng, 1) == (Running, Initial(rng));
  }

  /**
   * A click on Try Again: nothing at the first level, an `IndexError` past the last level, and
   * otherwise the previous level replayed.
   */
  lemma TryAgainButton(s: State, pos: Point, rng: seq<LevelDraw>)
    requires DrawsFit(rng) && Collides(ANSWER_BUTTONS[1].rect, pos)
    ensures Pressed(s, ANSWER_BUTTONS, pos, rng, 0) ==
      if s.levelIndex == 0 then (Running, s)
      else if s.levelIndex > |LEVELS| then (Raised, s)
      else (Running, TriedAgain(s, rng))
  {
    assert !Collides(ANSWER_BUTTONS[0].rect, pos);
    if 0 < s.levelIndex <= |LEVELS| {
      var r := TriedAgain(s, rng);
      assert Pressed(r, ANSWER_BUTTONS, pos, rng, 2) == (Running, r);
    } else {
      assert Pressed(s, ANSWER_BUTTONS, pos, rng, 2) == (Running, s);
    }
  }

  lemma MissKeepsInv(s: State)
    requires Inv(s)
    ensures Inv(Missed(s))
  {
  }

  /** Passing a level before the last one enters the next. */
  lemma NextLevelKeepsInv(s: State, rng: seq<LevelDraw>)
    requires Inv(s) && DrawsFit(rng) && s.awaitingRiddle && s.levelIndex + 1 < |LEVELS|
    ensures Inv(Advanced(s, rng))
  {
    var r := Advanced(s, rng);
    assert r.levelScores == s.levelScores + [s.score];
    HitCountBound(r.obstacles);
    UnrepeatedSub(Outstanding(s.currentRiddle, s.remainingRiddles), Outstanding(None, s.remainingRiddles));
  }

  /** Passing the last level, or entering its answer again, ends the game. */
  lemma LastLevelKeepsInv(s: State, rng: seq<LevelDraw>)
    requires Inv(s) && DrawsFit(rng) && s.awaitingRiddle && s.levelIndex + 1 >= |LEVELS|
    ensures Inv(Advanced(s, rng))
  {
    var r := Advanced(s, rng);
    assert r.levelScores == s.levelScores + [s.score];
    assert LedgerOk(r.levelIndex, r.levelScores, r.score);
  }

  lemma AnswerKeepsInv(s: State, rng: seq<LevelDraw>)
    requires Inv(s) && DrawsFit(rng) && s.awaitingRiddle
    ensures Inv(AnswerChecked(s, rng))
  {
    if !Matches(s) {
      MissKeepsInv(s);
    } else if s.levelIndex + 1 < |LEVELS| {
      NextLevelKeepsInv(s, rng);
    } else {
      LastLevelKeepsInv(s, rng);
    }
  }

  lemma KeyKeepsInv(s: State, key: Key, unicode: string, rng: seq<LevelDraw>)
    requires Inv(s) && DrawsFit(rng)
    ensures Inv(KeyPressed(s, key, unicode, rng))
  {
    if s.awaitingRiddle && key == Return {
      AnswerKeepsInv(s, rng);
    } else if !s.awaitingRiddle && s.gameOver && key == KeyR {
      FreshGame(rng);
    }
  }

  /** Pressing buttons keeps the invariant, whichever way the loop ends. */
  lemma {:induction false} PressedKeepsInv(s: State, buttons: seq<Button>, pos: Point, rng: seq<LevelDraw>, i: nat)
    requires Inv(s) && DrawsFit(rng) && i <= |buttons|
    ensures Inv(Pressed(s, buttons, pos, rng, i).1)
    decreases |buttons| - i
  {
    if i < |buttons| {
      if !Collides(buttons[i].rect, pos) {
        PressedKeepsInv(s, buttons, pos, rng, i + 1);
      } else if buttons[i].action.Restart? {
        FreshGame(rng);
        PressedKeepsInv(Initial(rng), buttons, pos, rng, i + 1);
      } else if s.levelIndex == 0 {
        PressedKeepsInv(s, buttons, pos, rng, i + 1);
      } else if s.levelIndex <= |LEVELS| {
        TryAgainStepsBack(s, rng);
        PressedKeepsInv(TriedAgain(s, rng), buttons, pos, rng, i + 1);
      }
    }
  }

  lemma EventKeepsInv(s: State, e: Event, rng: seq<LevelDraw>)
    requires Inv(s) && DrawsFit(rng)
    ensures Inv(OnEvent(s, e, rng).1)
  {
    match e
    case Quit =>
    case KeyDown(key, unicode) => KeyKeepsInv(s, key, unicode, rng);
    case MouseDown(pos) => PressedKeepsInv(s, s.buttons, pos, rng, 0);
  }

  /** Every event keeps the invariant, whichever way the loop ends. */
  lemma {:induction false} HandledKeepsInv(s: State, events: seq<Event>, rngs: seq<seq<LevelDraw>>, i: nat)
    requires Inv(s) && |rngs| == |events| && AllDrawsFit(rngs) && i <= |events|
    ensures Inv(Handled(s, events, rngs, i).1)
    decreases |events| - i
  {
    if i < |events| {
      EventKeepsInv(s, events[i], rngs[i]);
      var (flow, t) := OnEvent(s, events[i], rngs[i]);
      if flow == Running {
        HandledKeepsInv(t, events, rngs, i + 1);
      }
    }
  }

  /**
   * A playing frame keeps the number of stars, adds ten points per captured star, adds one crash
   * per obstacle first touched, and ends the game when one of those crashes is the fifth or later.
   * The obstacles stay the same ones, only flagged: no obstacle is added during play.
   */
  lemma PlayedFrame(s: State, f: FrameInput)
    requires Inv(s) && Playing(s) && FrameFits(s, f)
    ensures var r := Updated(s, f);
      && |r.stars| == |s.stars|
      && r.score == s.score + STAR_POINTS * Captures(f.starHits)
      && r.crashes == s.crashes + NewHits(s.obstacles, f.hazardHits)
      && HitCount(r.obstacles) == HitCount(s.obstacles) + (r.crashes - s.crashes)
      && (r.gameOver <==> r.crashes > s.crashes && r.crashes >= MAX_CRASHES)
      && |r.obstacles| == |s.obstacles|
      && (forall k :: 0 <= k < |r.obstacles| ==> r.obstacles[k].kind == s.obstacles[k].kind)
      && r.levelIndex == s.levelIndex && r.levelScores == s.levelScores
  {
    KeptSpawnedSizes(s.stars, f.replacements, f.starHits);
    HitAccounting(s.obstacles, f.hazardHits);
  }

  /**
   * The gate opens exactly when the level's threshold is met. The riddle drawn is taken out of
   * the pool; with an empty pool no riddle is pending.
   */
  lemma GateDraw(s: State, f: FrameInput)
    requires Inv(s) && Playing(s) && FrameFits(s, f)
    ensures var r := Updated(s, f);
      && (r.awaitingRiddle <==> r.score >= Threshold(LEVELS[s.levelIndex]))
      && (r.awaitingRiddle ==> r.levelComplete && r.riddleAnswer == [])
      && (r.awaitingRiddle && s.remainingRiddles != [] ==>
            && r.currentRiddle == Some(s.remainingRiddles[f.riddlePick])
            && multiset(r.remainingRiddles) == multiset(s.remainingRiddles) - multiset{r.currentRiddle.value})
      && (r.awaitingRiddle && s.remainingRiddles == [] ==> r.currentRiddle.None? && r.remainingRiddles == [])
      && (!r.awaitingRiddle ==> r.currentRiddle.None? && r.remainingRiddles == s.remainingRiddles)
  {
  }

  lemma GateKeepsInv(s: State, pick: nat)
    requires GateOk(s.levelIndex, s.score, s.levelComplete, s.awaitingRiddle, s.currentRiddle, s.remainingRiddles)
    requires s.currentRiddle.None? && s.remainingRiddles != [] && pick < |s.remainingRiddles|
    requires s.levelIndex < |LEVELS| && s.score >= Threshold(LEVELS[s.levelIndex])
    ensures var r := GateOpened(s, pick);
      GateOk(r.levelIndex, r.score, r.levelComplete, r.awaitingRiddle, r.currentRiddle, r.remainingRiddles)
  {
    var riddle := s.remainingRiddles[pick];
    var rest := RemoveFirst(s.remainingRiddles, riddle);
    assert multiset(rest) + multiset{riddle} == multiset(s.remainingRiddles);
    assert Outstanding(Some(riddle), rest) == Outstanding(s.currentRiddle, s.remainingRiddles);
  }

  lemma PlayedKeepsInv(s: State, f: FrameInput)
    requires Inv(s) && Playing(s) && FrameFits(s, f)
    ensures Inv(Updated(s, f))
  {
    PlayedFrame(s, f);
    CaptureKeepsField(s.stars, f.starHits, f.replacements);
    var t := Flown(s, f);
    if t.score >= Threshold(LEVELS[t.levelIndex]) && t.remainingRiddles != [] {
      GateKeepsInv(t, f.riddlePick);
    }
  }

  lemma UpdateKeepsInv(s: State, f: FrameInput)
    requires Inv(s) && FrameFits(s, f)
    ensures Inv(Updated(s, f))
  {
    if Playing(s) {
      PlayedKeepsInv(s, f);
    }
  }

  /** `update` changes nothing while the game is over, the gate is open or the level name is shown. */
  lemma FrozenFrame(s: State, f: FrameInput)
    requires Inv(s) && FrameFits(s, f)
    requires s.gameOver || s.levelComplete || s.awaitingRiddle || s.showingLevelName
    ensures Updated(s, f) == s
  {
  }

  /** The level name goes away once its time is up, and drawing changes nothing else. */
  lemma PaintedKeepsInv(s: State, elapsed: bool)
    requires Inv(s)
    ensures Inv(Painted(s, elapsed))
    ensures Painted(s, elapsed).showingLevelName == (s.showingLevelName && !elapsed)
    ensures Painted(s, elapsed).(showingLevelName := s.showingLevelName) == s
  {
  }

  /** Every pass of the main loop that does not stop on an error keeps the invariant. */
  lemma TickKeepsInv(s: State, events: seq<Event>, rngs: seq<seq<LevelDraw>>, f: FrameInput, elapsed: bool)
    requires Inv(s) && |rngs| == |events| && AllDrawsFit(rngs)
    requires FrameFits(Handled(s, events, rngs, 0).1, f)
    ensures Tick(s, events, rngs, f, elapsed).0 != Raised ==> Inv(Tick(s, events, rngs, f, elapsed).1)
  {
    var t := Handled(s, events, rngs, 0).1;
    HandledKeepsInv(s, events, rngs, 0);
    UpdateKeepsInv(t, f);
    PaintedKeepsInv(Updated(t, f), elapsed);
  }

  // ---------------------------------------------------------------------------------------------
  // The game object

  /** `Game`: the session object the main loop drives. */
  class Game {
    var levelIndex: nat
    /** The craft; `__init__` builds a new one, which this model does by re-initialising it. */
    const player: Ufo
    var obstacles: seq<Obstacle>
    var stars: seq<Star>
    var score: nat
    var gameOver: bool
    var levelComplete: bool
    var awaitingRiddle: bool
    var riddleAnswer: string
    var currentRiddle: Option<Riddle>
    var buttons: seq<Button>
    var remainingRiddles: seq<Riddle>
    var levelScores: seq<nat>
    var wrongAttempts: nat
    var showingLevelName: bool

    /** The game's fields, the craft's included, as a `State`. */
    ghost function Snapshot(): State
      reads this, player
    {
      State(levelIndex, player.x, player.y, player.crashes, obstacles, stars, score, gameOver,
        levelComplete, awaitingRiddle, riddleAnswer, currentRiddle, buttons, remainingRiddles,
        levelScores, wrongAttempts, showingLevelName)
    }

    ghost predicate Valid()
      reads this, player
    {
      Inv(Snapshot())
    }

    constructor (rng: seq<LevelDraw>)
      requires DrawsFit(rng)
      ensures Valid() && Snapshot() == Initial(rng)
    {
      player := new Ufo(CENTER);
      new;
      Restart(rng);
    }

    /** `Game.__init__`, which the handlers also call to start a new session. */
    method Restart(rng: seq<LevelDraw>)
      requires DrawsFit(rng)
      modifies this, player
      ensures Valid() && Snapshot() == Initial(rng)
    {
      Init(rng);
      FreshGame(rng);
    }

    /** The assignments of `__init__`. */
    method Init(rng: seq<LevelDraw>)
      requires DrawsFit(rng)
      modifies this, player
      ensures Snapshot() == Initial(rng)
    {
      player.Reinit(CENTER);
      InitProgressStores(rng);
      InitGateStores();
    }

    /** The progress fields as `__init__` sets them. */
    method InitProgressStores(rng: seq<LevelDraw>)
      requires DrawsFit(rng)
      modifies this`levelIndex, this`obstacles, this`stars, this`score, this`gameOver
      modifies this`remainingRiddles, this`levelScores, this`wrongAttempts
      ensures levelIndex == 0 && obstacles == [] && stars == rng[0].stars && score == 0 && !gameOver
      ensures remainingRiddles == RIDDLES && levelScores == [] && wrongAttempts == 0
    {
      levelIndex := 0;
      obstacles := [];
      stars := rng[0].stars;
      score := 0;
      gameOver := false;
      remainingRiddles := RIDDLES;
      levelScores := [];
      wrongAttempts := 0;
    }

    /** The gate, button and level-name fields as `__init__` sets them. */
    method InitGateStores()
      modifies this`levelComplete, this`awaitingRiddle, this`riddleAnswer, this`currentRiddle
      modifies this`buttons, this`showingLevelName
      ensures !levelComplete && !awaitingRiddle && riddleAnswer == [] && currentRiddle.None?
      ensures buttons == [] && showingLevelName
    {
      levelComplete := false;
      awaitingRiddle := false;
      riddleAnswer := "";
      currentRiddle := None;
      buttons := [];
      showingLevelName := true;
    }

    /** `Game.reset_level`. */
    method ResetLevel(rng: seq<LevelDraw>)
      requires DrawsFit(rng) && levelIndex < |LEVELS|
      modifies this`awaitingRiddle, this`levelComplete, this`riddleAnswer, this`currentRiddle
      modifies this`buttons, this`gameOver, this`wrongAttempts, player`x, player`y, this`obstacles
      modifies this`stars, this`showingLevelName
      ensures Snapshot() == LevelReset(old(Snapshot()), rng)
    {
      Clear();
      Stage(rng);
    }

    /** The gate, answer, buttons, misses and game-over flag as `reset_level` clears them. */
    method Clear()
      modifies this`awaitingRiddle, this`levelComplete, this`riddleAnswer, this`currentRiddle
      modifies this`buttons, this`gameOver, this`wrongAttempts
      ensures Snapshot() == Cleared(old(Snapshot()))
    {
      ClearStores();
    }

    /** The assignments of `Clear`, field by field. */
    method ClearStores()
      modifies this`awaitingRiddle, this`levelComplete, this`riddleAnswer, this`currentRiddle
      modifies this`buttons, this`gameOver, this`wrongAttempts
      ensures !awaitingRiddle && !levelComplete && riddleAnswer == [] && currentRiddle.None?
      ensures buttons == [] && !gameOver && wrongAttempts == 0
    {
      awaitingRiddle := false;
      levelComplete := false;
      riddleAnswer := "";
      currentRiddle := None;
      buttons := [];
      gameOver := false;
      wrongAttempts := 0;
    }

    /** The craft is centred, the current level's field is laid out and its name is shown. */
    method Stage(rng: seq<LevelDraw>)
      requires DrawsFit(rng) && levelIndex < |LEVELS|
      modifies player`x, player`y, this`obstacles, this`stars, this`showingLevelName
      ensures Snapshot() == Staged(old(Snapshot()), rng)
    {
      StageStores(rng);
    }

    /** The assignments of `Stage`, field by field. */
    method StageStores(rng: seq<LevelDraw>)
      requires DrawsFit(rng) && levelIndex < |LEVELS|
      modifies player`x, player`y, this`obstacles, this`stars, this`showingLevelName
      ensures player.x == CENTER.x && player.y == CENTER.y
      ensures obstacles == rng[levelIndex].hazards && stars == rng[levelIndex].stars
      ensures showingLevelName
    {
      player.x := CENTER.x;
      player.y := CENTER.y;
      obstacles := rng[levelIndex].hazards;
      stars := rng[levelIndex].stars;
      showingLevelName := true;
    }

    /** Enter while a riddle is awaited. */
    method CheckAnswer(rng: seq<LevelDraw>)
      requires DrawsFit(rng)
      modifies this, player
      ensures Snapshot() == AnswerChecked(old(Snapshot()), rng)
    {
      if currentRiddle.Some? && Lower(riddleAnswer) == currentRiddle.value.answer {
        NextLevel(rng);
      } else {
        wrongAttempts := wrongAttempts + 1;
        buttons := ANSWER_BUTTONS;
      }
    }

    /** `Game.next_level`. */
    method NextLevel(rng: seq<LevelDraw>)
      requires DrawsFit(rng)
      modifies this, player
      ensures Snapshot() == Advanced(old(Snapshot()), rng)
    {
      levelScores := levelScores + [score];
      levelIndex := levelIndex + 1;
      if levelIndex >= |LEVELS| {
        gameOver := true;
      } else {
        score := 0;
        player.crashes := 0;
        ResetLevel(rng);
      }
    }

    /** A KEYDOWN event. */
    method OnKey(key: Key, unicode: string, rng: seq<LevelDraw>)
      requires DrawsFit(rng)
      modifies this, player
      ensures Snapshot() == KeyPressed(old(Snapshot()), key, unicode, rng)
    {
      if awaitingRiddle {
        if key == Return {
          CheckAnswer(rng);
        } else if key == Backspace {
          riddleAnswer := DropLast(riddleAnswer);
        } else {
          riddleAnswer := riddleAnswer + unicode;
        }
      } else if gameOver && key == KeyR {
        Restart(rng);
      }
    }

    /** The Try Again button: replay the previous level. */
    method TryAgain(rng: seq<LevelDraw>)
      requires DrawsFit(rng) && 0 < levelIndex <= |LEVELS|
      modifies this, player
      ensures Snapshot() == TriedAgain(old(Snapshot()), rng)
    {
      StepBack();
      ResetLevel(rng);
    }

    /** One level back, its ledger entry dropped, no energy. */
    method StepBack()
      requires levelIndex > 0
      modifies this`levelIndex, this`levelScores, this`score
      ensures Snapshot() == SteppedBack(old(Snapshot()))
    {
      StepBackStores();
    }

    /** The assignments of `StepBack`, field by field. */
    method StepBackStores()
      requires levelIndex > 0
      modifies this`levelIndex, this`levelScores, this`score
      ensures levelIndex == old(levelIndex) - 1 && levelScores == DropLast(old(levelScores)) && score == 0
    {
      levelIndex := levelIndex - 1;
      if levelScores != [] {
        levelScores := levelScores[..|levelScores| - 1];
      }
      score := 0;
    }

    /** A MOUSEBUTTONDOWN event: every button under the click acts, in order. */
    method OnClick(pos: Point, rng: seq<LevelDraw>) returns (flow: Flow)
      requires DrawsFit(rng)
      modifies this, player
      ensures flow == Pressed(old(Snapshot()), old(buttons), pos, rng, 0).0
      ensures flow != Raised ==> Snapshot() == Pressed(old(Snapshot()), old(buttons), pos, rng, 0).1
    {
      var pressed := buttons;
      var i := 0;
      while i < |pressed|
        invariant i <= |pressed|
        invariant Pressed(old(Snapshot()), pressed, pos, rng, 0) == Pressed(Snapshot(), pressed, pos, rng, i)
        decreases |pressed| - i
      {
        var button := pressed[i];
        if Collides(button.rect, pos) {
          if button.action.Restart? {
            Restart(rng);
          } else if levelIndex > 0 {
            if levelIndex > |LEVELS| {
              // `reset_level` indexes `levels` out of range
              return Raised;
            }
            TryAgain(rng);
          }
        }
        i := i + 1;
      }
      return Running;
    }

    /** `Game.handle_events`: the events of one frame, in order, until QUIT or an error. */
    method HandleEvents(events: seq<Event>, rngs: seq<seq<LevelDraw>>) returns (flow: Flow)
      requires Valid() && |rngs| == |events| && AllDrawsFit(rngs)
      modifies this, player
      ensures flow == Handled(old(Snapshot()), events, rngs, 0).0
      ensures flow != Raised ==> Valid() && Snapshot() == Handled(old(Snapshot()), events, rngs, 0).1
    {
      var i := 0;
      while i < |events|
        invariant 0 <= i <= |events|
        invariant Valid()
        invariant Handled(old(Snapshot()), events, rngs, 0) == Handled(Snapshot(), events, rngs, i)
        decreases |events| - i
      {
        flow := Dispatch(events[i], rngs[i]);
        if flow != Running {
          return;
        }
        i := i + 1;
      }
      return Running;
    }

    /** One event of `Game.handle_events`. */
    method Dispatch(e: Event, rng: seq<LevelDraw>) returns (flow: Flow)
      requires Valid() && DrawsFit(rng)
      modifies this, player
      ensures flow == OnEvent(old(Snapshot()), e, rng).0
      ensures flow != Raised ==> Valid() && Snapshot() == OnEvent(old(Snapshot()), e, rng).1
    {
      EventKeepsInv(Snapshot(), e, rng);
      match e {
        case Quit =>
          return Exited;
        case KeyDown(key, unicode) =>
          OnKey(key, unicode, rng);
          return Running;
        case MouseDown(pos) =>
          flow := OnClick(pos, rng);
      }
    }

    /** `Game.update`. */
    method Update(f: FrameInput)
      requires Valid() && FrameFits(Snapshot(), f)
      modifies this, player
      ensures Valid() && Snapshot() == Updated(old(Snapshot()), f)
    {
      UpdateKeepsInv(Snapshot(), f);
      if gameOver || levelComplete || awaitingRiddle || showingLevelName {
        return;
      }
      Play(f);
    }

    /** A playing frame of `Game.update`. */
    method Play(f: FrameInput)
      requires Playing(Snapshot()) && levelIndex < |LEVELS| && FrameFits(Snapshot(), f)
      modifies this, player
      ensures Snapshot() == Played(old(Snapshot()), f)
    {
      Fly(f);
      if score >= Threshold(LEVELS[levelIndex]) {
        OpenGate(f.riddlePick);
      }
    }

    /** The flight: move the craft, count the crashes, capture the stars. */
    method Fly(f: FrameInput)
      requires |f.hazardHits| == |obstacles| && |f.starHits| == |stars| == |f.replacements|
      modifies player`x, player`y, player`crashes, this`obstacles, this`gameOver, this`stars, this`score
      ensures Snapshot() == Flown(old(Snapshot()), f)
    {
      player.Move(f.keys);
      CountCrashes(f.hazardHits);
      CollectStars(f.starHits, f.replacements);
    }

    /** The collision loop of `Game.update`. */
    method CountCrashes(hits: seq<bool>)
      requires |hits| == |obstacles|
      modifies this`obstacles, player`crashes, this`gameOver
      ensures Snapshot() == Crashed(old(Snapshot()), hits)
    {
      var crashes, over;
      obstacles, crashes, over := ResolveCrashes(obstacles, hits, player.crashes, gameOver);
      player.crashes, gameOver := crashes, over;
    }

    /** The star loop of `Game.update`. */
    method CollectStars(hits: seq<bool>, replacements: seq<Star>)
      requires |hits| == |stars| == |replacements|
      modifies this`stars, this`score
      ensures Snapshot() == Collected(old(Snapshot()), hits, replacements)
    {
      stars, score := CaptureStars(stars, hits, replacements, score);
    }

    /** The riddle gate opens on a riddle drawn from the pool, or on none once the pool is empty. */
    method OpenGate(pick: nat)
      requires remainingRiddles != [] ==> pick < |remainingRiddles|
      modifies this`levelComplete, this`awaitingRiddle, this`riddleAnswer, this`currentRiddle
      modifies this`remainingRiddles
      ensures Snapshot() == GateOpened(old(Snapshot()), pick)
    {
      levelComplete, awaitingRiddle, riddleAnswer := true, true, "";
      if remainingRiddles != [] {
        DrawRiddle(pick);
      } else {
        currentRiddle := None;
      }
    }

    /** `random.choice` then `list.remove`. */
    method DrawRiddle(pick: nat)
      requires pick < |remainingRiddles|
      modifies this`currentRiddle, this`remainingRiddles
      ensures Snapshot() == RiddleDrawn(old(Snapshot()), pick)
    {
      currentRiddle := Some(remainingRiddles[pick]);
      remainingRiddles := RemoveFirst(remainingRiddles, currentRiddle.value);
    }

    /** The part of `Game.draw` that changes the game: the level name's end. */
    method Draw(elapsed: bool)
      modifies this`showingLevelName
      ensures Snapshot() == Painted(old(Snapshot()), elapsed)
    {
      if showingLevelName && elapsed {
        showingLevelName := false;
      }
    }

    /** One pass of the main loop. */
    method RunFrame(events: seq<Event>, rngs: seq<seq<LevelDraw>>, f: FrameInput, elapsed: bool) returns (flow: Flow)
      requires Valid() && |rngs| == |events| && AllDrawsFit(rngs)
      requires FrameFits(Handled(Snapshot(), events, rngs, 0).1, f)
      modifies this, player
      ensures flow == Tick(old(Snapshot()), events, rngs, f, elapsed).0
      ensures flow != Raised ==> Valid() && Snapshot() == Tick(old(Snapshot()), events, rngs, f, elapsed).1
    {
      flow := HandleEvents(events, rngs);
      if flow == Raised {
        return;
      }
      Update(f);
      if !showingLevelName && gameOver && levelIndex >= |LEVELS| && |levelScores| > |LEVELS| {
        // the scoreboard indexes `levels` out of range
        return Raised;
      }
      PaintedKeepsInv(Snapshot(), elapsed);
      Draw(elapsed);
    }
  }
}
