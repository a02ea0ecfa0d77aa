# Cosmic Collector: a verified model of the game session

Cosmic Collector is a small pygame arcade game. A flying saucer (the UFO) moves about the arena.
It collects stars, each worth ten points of energy, and avoids rocks and black holes. Every obstacle
costs at most one crash, and the fifth crash ends the game. Once a level's energy reaches its
threshold (`stars_needed * 10`), a riddle gate opens. The right answer banks the level's energy in
a ledger (`level_scores`) and moves on to the next level. After the third level comes the final
scoreboard.

The repository holds four near-duplicate revisions of the game. This project models each one in
its own module, on top of shared modules for the parts they have in common.

| module | file | what it holds |
|---|---|---|
| `Basics` | basics.dfy | `Option`, `Min`/`Max`, and `DropLast` (Python's `list.pop()` / `s[:-1]`) |
| `Arena` | arena.dfy | the arena, the key state, and the UFO's clamped integer motion (`UFO.move`) as the class `Ufo` |
| `Stars` | stars.dfy | the star placement rule with its rejection loop (`Star.__init__`), and star capture with one-for-one replacement (the `for star in self.stars[:]` loop) |
| `Hazards` | hazards.dfy | obstacles with their `already_hit` flag, the collision loop, and crash accounting over an obstacle's lifetime |
| `Riddles` | riddles.dfy | `str.lower`, `str.strip`, `list.remove`, and the riddle pool's multiset facts |
| `Session` | session.dfy | rectangles and `collidepoint`, input events, level configurations, and the random draws one level reset or one frame consumes |
| `Game16` | game16.dfy | game16.py: trimmed answers, a crash per wrong answer, a hint button, Try Again on the same level, a pool that refills, and an animated scoreboard before the win screen |
| `Game10` | game10.dfy | game10.py: untrimmed answers, Restart/Try Again buttons on a wrong answer, Try Again one level back, a pool that runs dry, and a sliding level transition |
| `Game9` | game9.dfy | game9.py: like game10 but with the crashes reset per level, a timed level name, and no random obstacle spawning |
| `Game13` | game13.dfy | game13.py: wrong answers are only counted, a hint button, riddles drawn with replacement, more rocks per level, and a level intro that slides the UFO in |

Each revision's module has the same structure:

- A `State` datatype holds every field of the game object that matters to play, the UFO's
  position and crash count included.
- Pure transition functions describe each handler: `LevelReset` for `reset_level`,
  `AnswerChecked` for the Enter key, `KeyPressed`, `Clicked`/`Pressed`, `OnEvent`, `Handled` for
  `handle_events` over one frame's events, `Updated` for `update`, and `Tick` for one pass of the
  main loop.
- `Inv` is the invariant every reachable state satisfies. It covers:
  - the ledger holds one entry per passed level, each a multiple of ten and at least that level's
    threshold;
  - a riddle is pending only while the gate is open, and the threshold was met;
  - the riddle pool's bookkeeping;
  - every flagged obstacle was counted as a crash;
  - the level has as many stars as it places, all inside the star field.
- Lemmas state each property of a transition and prove that every transition keeps `Inv`.
- A class `Game` has the source's fields and the source's mutating methods. Each method is proved
  to leave the object in exactly the state the matching transition function gives. The entry
  points the main loop calls (the constructor, `Restart`, `HandleEvents`, `Dispatch`, `Update` and
  `RunFrame`) also promise `Valid()`, that is `Inv` of the object's state; the event handlers and
  `RunFrame` promise it whenever no exception escapes. The inner methods carry
  `Inv` only through the `...KeepsInv` lemmas about their transition functions.

Random results are inputs. `LevelDraw` carries the obstacles and stars one `reset_level` creates.
`FrameInput` carries one frame's held keys, the spawned obstacle, which obstacles and stars the
UFO overlaps, the replacement stars, and the index `random.choice` picks. The predicates
`DrawsFit` and `FrameFits` keep each input within the ranges the source's `randint` calls and
placement loop allow.

An uncaught Python exception ends the game. The model returns `Raised` for these paths and says
nothing about the state afterwards. There are three such paths:

- game16: clicking Try Again when the game was lost after the last level (`reset_level` indexes
  `levels[3]`).
- game10 and game9: clicking Try Again with `level_index` past 3.
- game9 and game13: drawing the final scoreboard once the ledger holds a fourth entry.

The model keeps some quirks of the revisions as written:

- In game10, game9 and game13 the riddle stays pending after the last level is passed. Pressing
  Enter again runs `next_level` once more:
  - game10 increments `level_index` without a new ledger entry;
  - game9 and game13 append a fourth entry, which breaks the scoreboard.
- In game13, a game-over flag raised in the frame the gate opens is carried into the next level.
  The won game shows the final scoreboard while a riddle is still awaited, so R only types into
  an answer that is not displayed, and the game cannot be restarted from there.
- In game16 the answer can still be entered after the game was lost while the riddle was
  pending.

## Model

| member | source | states |
|---|---|---|
| Basics.DropLast | game10.py:205-206 | `pop` of the ledger: the empty list stays empty; otherwise the result is one shorter and the list is the result plus its old last element |
| Arena.Moved | game16.py:106-116 | whatever keys are held, the UFO ends inside `[25, WIDTH-25] x [25, HEIGHT-25]`; from inside the arena each axis moves by at most the speed 5, and not at all when both or neither of its keys are held |
| Arena.Ufo.constructor | game16.py:95-100 | a new UFO is at the given start point with no crashes |
| Arena.Ufo.Reinit | game16.py:95-100 | re-initialising the UFO puts it at the start point and clears its crashes |
| Arena.Ufo.Move | game16.py:106-116 | `UFO.move` updates the position in place to `Moved` of the old one and ends inside the arena |
| Stars.PlaceStar | game16.py:166-172 | the rejection loop takes the first draw that lies in `[50, WIDTH-50] x [50, HEIGHT-50]` and is more than 50 away from the player (squared distance > 2500), after rejecting every earlier draw |
| Stars.PlacementPossible | game16.py:166-172 | for any player position some point of the star field is acceptable, so the `while True` loop has a way out |
| Stars.KeptSpawnedSizes | game16.py:363-369 | a capture frame keeps `len - captures` old stars and appends exactly `captures` new ones |
| Stars.CaptureStars | game16.py:363-369 | the loop over `stars[:]` leaves the kept stars in order followed by the replacements, the same number of stars, and the score raised by exactly 10 per capture |
| Stars.CapturedStarsFrom | game16.py:363-369 | every star after a capture frame was either on screen before or one of the new replacements |
| Stars.SpawnedPlaced | game16.py:369 | replacements placed by `Star(self.player)` keep the placement rule after the capture |
| Stars.CaptureKeepsField | game16.py:363-369 | a capture frame keeps every star inside the star field |
| Hazards.MarkHits | game16.py:354-362 | after the collision loop each obstacle keeps its kind and size, and is flagged exactly when it was flagged before or overlapped now |
| Hazards.HitCountBound | game16.py:134 | no more obstacles are flagged than exist, and freshly built obstacles have none flagged |
| Hazards.HitAccounting | game16.py:354-362 | the collision loop flags exactly as many new obstacles as it counts crashes |
| Hazards.ResolveCrashes | game16.py:354-362 | the loop flags the touched obstacles, adds one crash per obstacle touched for the first time, and sets game over once one of those crashes reaches 5 |
| Hazards.SpawnKeepsHitCount | game16.py:351-353 | a newly spawned obstacle comes unflagged and adds no crash |
| Hazards.CrashesOverLifetime | game16.py:351-362 | over any run of frames, flags grow exactly by the crashes counted, and the crashes are bounded by the obstacles that were not yet flagged, so each obstacle costs at most one crash in its lifetime |
| Riddles.LowerChar | game16.py:269-270 | a lowered character is never an upper-case ASCII letter, and lowering keeps white space |
| Riddles.Lower | game16.py:269-270 | `lower()` keeps the length and lowers each character |
| Riddles.LowerIdempotent | game16.py:269-270 | lowering twice is lowering once |
| Riddles.Strip | game16.py:269-270 | `strip()` is the slice between the leading and trailing white space, and it neither begins nor ends with white space |
| Riddles.StripStripped | game16.py:269-270 | a string with no surrounding white space is its own strip |
| Riddles.Normalize | game16.py:269-270 | `strip().lower()` has no surrounding white space and no upper-case ASCII letter |
| Riddles.NormalizeIdempotent | game16.py:269-270 | normalising twice is normalising once, so a stored answer compares with itself |
| Riddles.NormalizeExamples | game16.py:269-271 | `" Echo "` matches the answer `echo`, and `"Echoo"` does not |
| Riddles.RemoveFirst | game16.py:279 | `list.remove` of a present element drops exactly one copy; an absent element leaves the list as it was |
| Riddles.RemoveFirstAt | game16.py:279 | `list.remove` drops the first occurrence and keeps the other elements in their order: the result is the list before that occurrence followed by the list after it |
| Riddles.DrawWithoutReplacement | game10.py:291-292 | a picked riddle removed from the pool leaves one riddle fewer, one copy fewer of the picked one, and no riddle from outside the game |
| Riddles.DistinctUnrepeated | game9.py:48-58 | a list of pairwise distinct riddles holds each riddle once |
| Riddles.UnrepeatedSub | game9.py:286-287 | removing riddles from a pool that holds each riddle once keeps every riddle there once |
| Game16.LevelReset | game16.py:303-321 | `reset_level` wraps a past-the-end index to 0 unless told to keep it; it builds the level's rocks and black holes and `5 + 2*level_index` stars placed away from the entry point, puts the UFO at the entry with the intro on, and clears the gate, answer, misses and both hint flags. It keeps the energy, the crashes, the ledger, the riddle pool and the game-over flag |
| Game16.Initial | game16.py:192-226 | a new session satisfies the invariant: first level, no energy or crashes, an empty ledger, the full pool, no ending screen, and the first level laid out |
| Game16.Refilled | game16.py:282-283 | the pool is never left empty, and a pool with riddles is kept as it is |
| Game16.CorrectAnswerAdvances | game16.py:271-290 | a right answer appends the level's energy to the ledger, resets the energy, closes the gate, and advances the level. It enters the next level, or the scoreboard after the last. The pool loses the first copy of the solved riddle and is refilled with all riddles only if that empties it |
| Game16.WrongAnswerPenalty | game16.py:291-301 | a wrong answer adds one miss and one crash and clears the typed answer; game over comes at 5 crashes and the hint is revealed from the third miss; the riddle, level, ledger and energy stay |
| Game16.TryAgainKeepsProgress | game16.py:252-256 | Try Again keeps the level, the ledger and the pool, sets energy and crashes to 0, clears game over, and replays the level from its intro |
| Game16.MissKeepsInv | game16.py:291-301 | a wrong answer keeps the invariant |
| Game16.PassKeepsParts | game16.py:271-286 | a right answer keeps the ledger, gate and crash parts of the invariant |
| Game16.LastPassKeepsInv | game16.py:286-288 | a right answer at the last level keeps the invariant and opens the scoreboard |
| Game16.NextLevelKeepsInv | game16.py:286-290 | a right answer before the last level keeps the invariant |
| Game16.AnswerKeepsInv | game16.py:266-301 | `check_riddle_answer` keeps the invariant |
| Game16.KeyKeepsInv | game16.py:234-244 | every key event keeps the invariant |
| Game16.ClickKeepsInv | game16.py:246-262 | every click that does not raise keeps the invariant |
| Game16.EventKeepsInv | game16.py:228-264 | every event that does not raise keeps the invariant |
| Game16.HandledKeepsInv | game16.py:228-264 | a frame's run of events keeps the invariant up to QUIT or an error |
| Game16.PlayedFrame | game16.py:349-380 | a playing frame keeps the star count, adds 10 per capture, adds one crash per obstacle first touched, sets game over exactly at 5 crashes, and opens the gate exactly when the threshold is met. An opened gate marks the level complete, clears the answer and the misses, offers the hint, refills an empty pool, and poses the riddle at the drawn index of that pool. A closed gate leaves the pool alone and poses no riddle |
| Game16.PlayedKeepsInv | game16.py:349-380 | a playing frame keeps the invariant |
| Game16.UpdateKeepsInv | game16.py:323-380 | every `update` keeps the invariant |
| Game16.ScoreboardKeepsInv | game16.py:326-341 | a scoreboard frame keeps the invariant |
| Game16.IntroKeepsInv | game16.py:343-347 | an intro frame keeps the invariant |
| Game16.FrozenFrame | game16.py:342-348 | outside the intro and the scoreboard, `update` changes nothing while the game is over or a riddle is awaited |
| Game16.DrawnKeepsInv | game16.py:383-388 | drawing keeps the invariant, and once the win screen is drawn its Restart button is the win screen's |
| Game16.WinScreenTiming | game16.py:326-341 | from the scoreboard's start, the win screen appears on frame 408 and not before |
| Game16.ScoreboardProgress | game16.py:326-341 | after `n` scoreboard frames the UFO has moved `4n`, the timer counts the frames past `WIDTH + 200`, and the ledger is unchanged |
| Game16.ScoreboardAfterLast | game16.py:326-341 | `n + 1` scoreboard frames are `n` frames followed by one more |
| Game16.TickKeepsInv | game16.py:462-472 | every pass of the main loop that does not raise keeps the invariant |
| Game16.Game.constructor | game16.py:192-226 | a new game object is the initial state and satisfies the invariant |
| Game16.Game.Restart | game16.py:192-226 | `__init__` on a live object resets it to the initial state |
| Game16.Game.InitFields | game16.py:192-225 | `__init__`'s assignments before `reset_level` |
| Game16.Game.ResetLevel | game16.py:303-321 | `reset_level` updates the fields in place to `LevelReset` of the old state |
| Game16.Game.ClearRiddle | game16.py:307-316 | the gate, answer, misses and hint flags are cleared in place |
| Game16.Game.Stage | game16.py:309-321 | the UFO goes to the entry point and the level's obstacles and stars are laid out |
| Game16.Game.CheckRiddleAnswer | game16.py:266-301 | `check_riddle_answer` updates the object to `AnswerChecked` of the old state |
| Game16.Game.PassLevel | game16.py:272-286 | the right-answer bookkeeping in place |
| Game16.Game.BankScore | game16.py:272-277 | the energy goes to the ledger and the answer box and hint are reset |
| Game16.Game.RetireRiddle | game16.py:278-285 | the solved riddle leaves the pool, which refills when empty, and the gate closes |
| Game16.Game.MissRiddle | game16.py:291-301 | the wrong-answer penalty in place |
| Game16.Game.OnKey | game16.py:234-244 | a KEYDOWN event updates the object to `KeyPressed` of the old state |
| Game16.Game.TryAgain | game16.py:252-256 | Try Again in place |
| Game16.Game.OnClick | game16.py:246-262 | a click raises exactly on Try Again after a loss past the last level; otherwise it updates the object to `Clicked` of the old state |
| Game16.Game.ClickHint | game16.py:248-251 | the hint button in place |
| Game16.Game.HandleEvents | game16.py:228-264 | `handle_events` runs the frame's events in order, returns how the loop goes on, and keeps the invariant when it does not raise |
| Game16.Game.Dispatch | game16.py:229-262 | one event in place, keeping the invariant |
| Game16.Game.Update | game16.py:323-380 | `update` updates the object to `Updated` of the old state and keeps the invariant |
| Game16.Game.AnimateScoreboard | game16.py:327-340 | a scoreboard frame in place |
| Game16.Game.EnterLevel | game16.py:343-347 | an intro frame in place |
| Game16.Game.Play | game16.py:349-380 | a playing frame in place |
| Game16.Game.Fly | game16.py:349-369 | move, spawn, collisions and captures in place |
| Game16.Game.CountCrashes | game16.py:354-362 | the collision loop in place |
| Game16.Game.CollectStars | game16.py:363-369 | the star loop in place |
| Game16.Game.OpenGate | game16.py:370-380 | the gate opening in place, picking from the refilled pool |
| Game16.Game.Draw | game16.py:383-388 | the win screen's Restart button in place |
| Game16.Game.RunFrame | game16.py:462-472 | one pass of the main loop (events, update, draw) updates the object to `Tick` of the old state and keeps the invariant |
| Game10.Initial | game10.py:152-176 | a new session satisfies the invariant: first level, no obstacles, five stars, an empty ledger, the full pool, no buttons, and the transition starting at -50 with the UFO centred |
| Game10.LevelReset | game10.py:218-235 | `reset_level` builds the level's rocks and black holes and `5 + 2*level_index` stars, centres the UFO, starts the transition, and clears the gate, answer, buttons and game over; it keeps energy, crashes, misses, ledger and pool |
| Game10.CorrectAnswerNextLevel | game10.py:183-187 | an untrimmed lower-cased match before the last level appends the energy, advances, zeroes energy and misses, keeps the crashes, and enters the next level's transition |
| Game10.CorrectAnswerLastLevel | game10.py:365-371 | a match at or past the last level advances the index and ends the game with the energy kept; the ledger grows only while the index was within the levels, and the riddle stays pending |
| Game10.WrongAnswerShowsButtons | game10.py:188-190 | a wrong answer adds one miss and shows Restart and Try Again; the typed answer, crashes, level, ledger and energy stay |
| Game10.EmptyPoolBlocksGate | game10.py:185 | with no riddle pending no key advances the level |
| Game10.TryAgainStepsBack | game10.py:202-208 | Try Again steps back one level, drops the last ledger entry so the ledger again matches the level, zeroes the energy and replays the level, keeping the invariant |
| Game10.RestartButton | game10.py:198-201 | a click on Restart, of either pair of buttons, gives exactly a new session |
| Game10.TryAgainButton | game10.py:198-208 | a click on Try Again does nothing at the first level, raises past the last level, and otherwise replays the previous level |
| Game10.MissKeepsInv | game10.py:188-190 | a wrong answer keeps the invariant |
| Game10.NextLevelKeepsInv | game10.py:365-373 | `next_level` before the last level keeps the invariant |
| Game10.LastLevelKeepsInv | game10.py:365-371 | `next_level` at or past the last level keeps the invariant |
| Game10.AnswerKeepsInv | game10.py:183-190 | Enter keeps the invariant |
| Game10.KeyKeepsInv | game10.py:181-196 | every key event keeps the invariant |
| Game10.PressedKeepsInv | game10.py:197-208 | the button loop keeps the invariant |
| Game10.EventKeepsInv | game10.py:178-209 | every event keeps the invariant |
| Game10.HandledKeepsInv | game10.py:178-209 | a frame's run of events keeps the invariant |
| Game10.PlayedFrame | game10.py:263-284 | a playing frame keeps the star count, adds 10 per capture, adds one crash per obstacle first touched, and sets game over when one of them reaches 5 |
| Game10.GateDraw | game10.py:286-294 | the gate opens exactly at the threshold; the riddle picked leaves the pool, and an empty pool leaves no riddle pending |
| Game10.GateKeepsInv | game10.py:286-292 | drawing a riddle keeps each riddle used at most once |
| Game10.PlayedKeepsInv | game10.py:263-294 | a playing frame keeps the invariant |
| Game10.UpdateKeepsInv | game10.py:260-294 | every `update` keeps the invariant |
| Game10.FrozenFrame | game10.py:261-262 | `update` changes nothing while the game is over, the level is complete, a riddle is awaited or the transition plays |
| Game10.TransitionKeepsInv | game10.py:246-253 | a transition frame keeps the invariant |
| Game10.PaintedKeepsInv | game10.py:349-354 | drawing keeps the invariant and shows the win screen's buttons once the game is won |
| Game10.TransitionTiming | game10.py:249-253 | a transition lasts 57 frames at 8 a frame from -50, and ends with the UFO centred |
| Game10.TransitionAfterLast | game10.py:249-253 | `n + 1` transition frames are `n` frames followed by one more |
| Game10.TickKeepsInv | game10.py:380-386 | every pass of the main loop that does not raise keeps the invariant |
| Game10.Game.constructor | game10.py:152-176 | a new game object is the initial state and satisfies the invariant |
| Game10.Game.Restart | game10.py:152-176 | `__init__` on a live object resets it to the initial state |
| Game10.Game.Init | game10.py:152-176 | `__init__`'s assignments |
| Game10.Game.ResetLevel | game10.py:218-235 | `reset_level` in place |
| Game10.Game.Clear | game10.py:219-231 | the gate, answer, buttons and game over are cleared in place |
| Game10.Game.Stage | game10.py:221-235 | the UFO is centred, the level laid out and its transition started |
| Game10.Game.CheckAnswer | game10.py:183-190 | Enter in place |
| Game10.Game.NextLevel | game10.py:365-373 | `next_level` in place |
| Game10.Game.BankScore | game10.py:366-367 | the energy goes to the ledger unless the last level was already passed |
| Game10.Game.OnKey | game10.py:181-196 | a KEYDOWN event in place |
| Game10.Game.TryAgain | game10.py:203-208 | Try Again in place |
| Game10.Game.StepBack | game10.py:204-207 | one level back, the last ledger entry dropped, no energy |
| Game10.Game.OnClick | game10.py:197-208 | the loop over the buttons under the click, in order, returning whether it raised |
| Game10.Game.HandleEvents | game10.py:178-209 | `handle_events` in place, keeping the invariant when it does not raise |
| Game10.Game.Dispatch | game10.py:179-208 | one event in place |
| Game10.Game.Update | game10.py:260-294 | `update` in place, keeping the invariant |
| Game10.Game.Play | game10.py:263-294 | a playing frame in place |
| Game10.Game.Fly | game10.py:263-284 | move, spawn, collisions and captures in place |
| Game10.Game.CountCrashes | game10.py:270-277 | the collision loop in place |
| Game10.Game.CollectStars | game10.py:279-284 | the star loop in place |
| Game10.Game.OpenGate | game10.py:286-294 | the gate opening in place |
| Game10.Game.DrawRiddle | game10.py:291-292 | `random.choice` then `list.remove` in place |
| Game10.Game.Transition | game10.py:246-253 | a transition frame in place |
| Game10.Game.Draw | game10.py:349-354 | the win screen's buttons in place |
| Game10.Game.RunFrame | game10.py:380-386 | one pass of the main loop, the transition instead of update and draw while it plays |
| Game9.Initial | game9.py:175-197 | a new session: first level, no obstacles, five stars, an empty ledger, the full pool, no buttons, and the level name shown |
| Game9.RiddlesDistinct | game9.py:48-58 | the nine riddles are pairwise distinct |
| Game9.FullPoolUnrepeated | game9.py:191 | the full pool holds no riddle twice |
| Game9.FreshGame | game9.py:175-197 | a new session satisfies the invariant |
| Game9.LevelReset | game9.py:239-257 | `reset_level` builds the level's rocks and black holes and `5 + 2*level_index` stars, centres the UFO, shows the level name, and clears gate, answer, buttons, misses and game over; it keeps energy, crashes, ledger and pool |
| Game9.CorrectAnswerNextLevel | game9.py:206-208 | an untrimmed lower-cased match before the last level appends the energy, advances, zeroes energy, crashes and misses, and shows the next level's name |
| Game9.CorrectAnswerLastLevel | game9.py:346-351 | a match at the last level appends the energy, ends the game with energy and crashes kept, and leaves the riddle pending |
| Game9.AnswerAgainAfterWin | game9.py:339-340 | entering the answer again after the win adds a fourth entry, on which drawing the scoreboard fails, though it did not before |
| Game9.WrongAnswerShowsButtons | game9.py:209-211 | a wrong answer adds one miss and shows Restart and Try Again; answer, crashes, level, ledger and energy stay |
| Game9.EmptyPoolBlocksGate | game9.py:207 | with no riddle pending no key advances the level |
| Game9.TryAgainStepsBack | game9.py:223-229 | Try Again steps back one level, drops the last ledger entry, zeroes energy and misses, and shows the level name, keeping the invariant |
| Game9.RestartButton | game9.py:219-222 | a click on Restart gives exactly a new session |
| Game9.TryAgainButton | game9.py:219-229 | a click on Try Again does nothing at the first level, raises past the last level, and otherwise replays the previous level |
| Game9.MissKeepsInv | game9.py:209-211 | a wrong answer keeps the invariant |
| Game9.NextLevelKeepsInv | game9.py:346-354 | `next_level` before the last level keeps the invariant |
| Game9.LastLevelKeepsInv | game9.py:346-351 | `next_level` at or past the last level keeps the invariant |
| Game9.AnswerKeepsInv | game9.py:206-211 | Enter keeps the invariant |
| Game9.KeyKeepsInv | game9.py:204-217 | every key event keeps the invariant |
| Game9.PressedKeepsInv | game9.py:218-229 | the button loop keeps the invariant |
| Game9.EventKeepsInv | game9.py:200-230 | every event keeps the invariant |
| Game9.HandledKeepsInv | game9.py:200-230 | a frame's run of events keeps the invariant |
| Game9.PlayedFrame | game9.py:262-279 | a playing frame keeps the star count, adds 10 per capture, adds one crash per obstacle first touched, sets game over when one of them reaches 5, and adds no obstacle |
| Game9.GateDraw | game9.py:281-289 | the gate opens exactly at the threshold; the riddle picked leaves the pool, and an empty pool leaves no riddle pending |
| Game9.GateKeepsInv | game9.py:281-289 | drawing a riddle keeps each riddle used at most once |
| Game9.PlayedKeepsInv | game9.py:262-289 | a playing frame keeps the invariant |
| Game9.UpdateKeepsInv | game9.py:259-289 | every `update` keeps the invariant |
| Game9.FrozenFrame | game9.py:260-261 | `update` changes nothing while the game is over, the level is complete, a riddle is awaited or the level name shows |
| Game9.PaintedKeepsInv | game9.py:293-302 | drawing keeps the invariant, hides the level name once its time is up, and changes nothing else |
| Game9.TickKeepsInv | game9.py:357-370 | every pass of the main loop that does not raise keeps the invariant |
| Game9.Game.constructor | game9.py:175-197 | a new game object is the initial state and satisfies the invariant |
| Game9.Game.Restart | game9.py:175-197 | `__init__` on a live object resets it to the initial state |
| Game9.Game.Init | game9.py:175-197 | `__init__`'s assignments |
| Game9.Game.ResetLevel | game9.py:239-257 | `reset_level` in place |
| Game9.Game.Clear | game9.py:240-253 | gate, answer, buttons, misses and game over cleared in place |
| Game9.Game.Stage | game9.py:242-256 | the UFO centred, the level laid out and its name shown |
| Game9.Game.CheckAnswer | game9.py:206-211 | Enter in place |
| Game9.Game.NextLevel | game9.py:346-354 | `next_level` in place |
| Game9.Game.OnKey | game9.py:204-217 | a KEYDOWN event in place |
| Game9.Game.TryAgain | game9.py:224-229 | Try Again in place |
| Game9.Game.StepBack | game9.py:225-228 | one level back, the last ledger entry dropped, no energy |
| Game9.Game.OnClick | game9.py:218-229 | the loop over the buttons under the click, in order, returning whether it raised |
| Game9.Game.HandleEvents | game9.py:200-230 | `handle_events` in place, keeping the invariant when it does not raise |
| Game9.Game.Dispatch | game9.py:201-229 | one event in place |
| Game9.Game.Update | game9.py:259-289 | `update` in place, keeping the invariant |
| Game9.Game.Play | game9.py:262-289 | a playing frame in place |
| Game9.Game.Fly | game9.py:262-279 | move, collisions and captures in place |
| Game9.Game.CountCrashes | game9.py:265-272 | the collision loop in place |
| Game9.Game.CollectStars | game9.py:274-279 | the star loop in place |
| Game9.Game.OpenGate | game9.py:281-289 | the gate opening in place |
| Game9.Game.DrawRiddle | game9.py:286-287 | `random.choice` then `list.remove` in place |
| Game9.Game.Draw | game9.py:293-302 | the level name's end in place |
| Game9.Game.RunFrame | game9.py:357-370 | one pass of the main loop, raising when the scoreboard cannot be drawn |
| Game13.Initial | game13.py:172-195 | a new session: first level, no obstacles, five stars, an empty ledger, the full pool, no hint, and the intro starting at the left edge |
| Game13.FreshGame | game13.py:172-195 | a new session satisfies the invariant |
| Game13.LevelReset | game13.py:220-237 | `reset_level` builds `obstacles + 2*level_index` rocks, the black holes and `5 + 2*level_index` stars, puts the UFO at the left edge with the intro on, and clears gate, answer, misses and both hint flags; it keeps game over, energy, crashes, ledger and pool |
| Game13.CorrectAnswerNextLevel | game13.py:203-205 | a lower-cased match before the last level appends the energy, advances, zeroes energy, crashes and misses, starts the intro, and carries the game-over flag over |
| Game13.CorrectAnswerLastLevel | game13.py:327-331 | a match at the last level appends the energy and ends the game with energy and crashes kept; the riddle stays pending, and entering it again adds a fourth entry on which the scoreboard fails |
| Game13.WrongAnswerCounted | game13.py:206-207 | a wrong answer changes nothing but the count of misses |
| Game13.AnswerEditing | game13.py:208-211 | while a riddle is awaited, Backspace drops the last character (nothing on an empty answer) and any other key but Enter appends its text; nothing else changes |
| Game13.RestartKey | game13.py:212-213 | with no riddle awaited, R starts a new session exactly when the game is over |
| Game13.HintClick | game13.py:214-217 | a click reveals the hint exactly when it hits the offered Hint button, and changes nothing else |
| Game13.WonScreenStays | game13.py:202-213 | no event leaves the won state: the final scoreboard is shown while a riddle is still awaited, so every key, R included, only edits an answer that is not displayed |
| Game13.WonGameStays | game13.py:197-218 | a run of events keeps a won game won |
| Game13.NextLevelKeepsInv | game13.py:327-335 | `next_level` before the last level keeps the invariant |
| Game13.LastLevelKeepsInv | game13.py:327-331 | `next_level` at or past the last level keeps the invariant |
| Game13.AnswerKeepsInv | game13.py:203-207 | Enter keeps the invariant |
| Game13.KeyKeepsInv | game13.py:201-213 | every key event keeps the invariant |
| Game13.EventKeepsInv | game13.py:197-218 | every event keeps the invariant |
| Game13.HandledKeepsInv | game13.py:197-218 | a frame's run of events keeps the invariant and never raises |
| Game13.PlayedFrame | game13.py:242-257 | a playing frame keeps the star count, adds 10 per capture, adds one crash per obstacle first touched, sets game over when one of them reaches 5, and adds no obstacle |
| Game13.GateDraw | game13.py:258-264 | the gate opens exactly at the threshold with the Hint button offered and its hint hidden; the riddle is picked from the pool, which keeps it |
| Game13.PlayedKeepsInv | game13.py:242-264 | a playing frame keeps the invariant |
| Game13.UpdateKeepsInv | game13.py:239-264 | every `update` keeps the invariant |
| Game13.FrozenFrame | game13.py:240-241 | `update` changes nothing while the game is over, the level is complete, a riddle is awaited or the intro runs |
| Game13.PaintedKeepsInv | game13.py:266-294 | drawing keeps the invariant |
| Game13.IntroTiming | game13.py:285-294 | an intro lasts 40 frames at 10 a frame from the left edge and changes nothing but the UFO's x and the intro flag |
| Game13.IntroAfterLast | game13.py:285-294 | `n + 1` intro frames are `n` frames followed by one more |
| Game13.TickKeepsInv | game13.py:338-351 | every pass of the main loop that does not raise keeps the invariant |
| Game13.Game.constructor | game13.py:172-195 | a new game object is the initial state and satisfies the invariant |
| Game13.Game.Restart | game13.py:172-195 | `__init__` on a live object resets it to the initial state |
| Game13.Game.Init | game13.py:172-195 | `__init__`'s assignments |
| Game13.Game.ResetLevel | game13.py:220-237 | `reset_level` in place |
| Game13.Game.Clear | game13.py:221-237 | gate, answer, misses and hint flags cleared in place |
| Game13.Game.Stage | game13.py:223-232 | the UFO at the left edge, the intro on and the level laid out |
| Game13.Game.CheckAnswer | game13.py:203-207 | Enter in place |
| Game13.Game.NextLevel | game13.py:327-335 | `next_level` in place |
| Game13.Game.OnKey | game13.py:201-213 | a KEYDOWN event in place |
| Game13.Game.OnClick | game13.py:214-217 | the hint click in place |
| Game13.Game.HandleEvents | game13.py:197-218 | `handle_events` in place, keeping the invariant |
| Game13.Game.Dispatch | game13.py:198-217 | one event in place |
| Game13.Game.Update | game13.py:239-264 | `update` in place, keeping the invariant |
| Game13.Game.Play | game13.py:242-264 | a playing frame in place |
| Game13.Game.Fly | game13.py:242-257 | move, collisions and captures in place |
| Game13.Game.CountCrashes | game13.py:244-251 | the collision loop in place |
| Game13.Game.CollectStars | game13.py:252-257 | the star loop in place |
| Game13.Game.OpenGate | game13.py:258-264 | the gate opening in place, the pool kept |
| Game13.Game.Complete | game13.py:259-261 | the level is complete and the gate opens on an empty answer |
| Game13.Game.OfferHint | game13.py:262-263 | the Hint button offered, its hint hidden |
| Game13.Game.Draw | game13.py:266-294 | the intro's step in place |
| Game13.Game.RunFrame | game13.py:338-351 | one pass of the main loop (events, update, draw), raising when the scoreboard cannot be drawn |

## Left out

- Drawing: overlays, fonts, colours, hover effects, the background and overlay stars, and
  `draw_wrapped_text` are pygame rendering. Only what drawing changes in the game is kept: the
  intro step, the level name's end, the win screen's buttons, and the scoreboard's `IndexError`.
- Sound loading and playback are audio I/O and do not affect the game.
- `pygame.event.get`, `pygame.key.get_pressed` and `pygame.mouse.get_pos` become inputs: a list
  of events, the held keys, and the click position carried by the event.
- Obstacle motion (`random.uniform` velocities, `x += dx`, bouncing off the walls, black holes
  re-entering from the top, spin) is floating-point arithmetic. Obstacles keep only their kind, size and `already_hit` flag.
- `colliderect` on float coordinates is a foreign call. Each frame's overlaps are boolean inputs.
- The `random` module becomes inputs: draws checked against the ranges of `randint`, and a pick
  index for `random.choice`.
- `time.time()` is wall-clock I/O. game9's three-second level name is ended by an `elapsed` input.
  game10's `level_start_time` and `show_level_message` are not read by any modelled code.
- `main`, `clock.tick`, `pygame.quit` and `sys.exit` are the loop's plumbing. `RunFrame` models
  one pass of the loop body.
- game16's scoreboard trail (`final_trail` and its alpha fade) is cosmetic.
- game16's `hint_rect` is assumed to exist once a hint is offered. The source raises
  `AttributeError` if a hint click comes before the button was ever drawn.
- game13's `buttons` list is never read, and game13's `hint_rect` is modelled as its constant
  rectangle.
- `__init__` builds a new `UFO`; the model re-initialises the one it has, so the object stays
  the same.
- A `Raised` outcome leaves the state unconstrained, since the program ends there.
- Riddles.Lower: lowers the Latin-1 capitals only (A-Z and À-Þ), because Python's full Unicode case
  mapping is out of scope; the riddles' answers are plain lower-case ASCII.
