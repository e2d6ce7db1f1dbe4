# NAO platformer: per-tick kinematics and game loop

This project models the game logic of the NAO robot platformers: the pygame
games `superNAO` and `nao_showgame` v2 to v5. The robot reacts to what happens
in the game. Each game redraws sixty times a second; the model describes one
such pass as a pure function from the game state to the next state plus a log
of robot reactions, and proves what the games promise about it.

- `geometry.dfy` (Geometry): integer rectangles, the strict overlap test of the
  game library, and the assignment of a rectangle's bottom edge.
- `reactions.dfy` (Reactions): the reactions the robot performs (jump, landing,
  fall, applause, cheer, boo, speech) as log entries, and counting over logs.
- `physics.dfy` (Physics): the player update shared by all variants — walking
  with LEFT taking priority over RIGHT, the jump from the ground with power
  -15, gravity 1 clamped at a fall speed of 10, the move, and the sequential
  landing loop that snaps the player onto every platform it overlaps while
  not rising. Also the ten-frame walk animation.
- `oscillators.dfy` (Oscillators): the four back-and-forth rules that move
  platforms and enemies:
  - Shuttle: v4 moving platforms and v5 movable platforms;
  - Patrol: v2 enemies and the v2 lift;
  - EdgeBounce: v3 and v5 enemies;
  - Drift: v4 enemies.

  Each rule comes with the invariant it keeps.
- `enemies.dfy` (Enemies): the animated enemy of v3, v4 and v5, with the
  window-edge bounce (v3 and v5) and the endless walk (v4).
- `fall_watch.dfy` (FallWatch): the fall counter that fires the fall reaction
  on the twentieth consecutive tick of fast falling.
- `menu.dfy` (Menu): the START/STOP menu of v3 and v4.
- `stage.dfy` (Stage): the fixed three-platform course, the spawn point and the
  one-shot level-complete latch of the single-screen variants.
- `game_v2.dfy` … `game_v5.dfy`, `super_nao.dfy`: one module per game, each
  with its world state, its tick in the order the game loop runs it, and
  lemmas over whole runs.

Inputs the games read from the outside become parameters:
- keys held, and key presses;
- whether the robot is connected;
- the sizes of the images, which fix sprite sizes;
- the random draws v5 makes when it generates a level (`Draw`, constrained by
  `ValidDraw` to the ranges `random.randint` can return).

The robot's speech, motions, LEDs and sounds are not executed. The event log
records which reaction the game asks for, one entry per call. In v2 to v5 the
jump, landing, fall and applause reactions play a sound whether or not the
robot is connected, and only their robot part depends on the connection; the
audience cheer and boo of v2 and the spoken lines only reach a connected robot
and play no sound. Where the game loop itself checks the connection before
speaking (the START/STOP menu of v3 and v4, and all of superNAO) the model
takes the connection as a parameter and logs nothing without it.

In v5 an enemy's x is a level position, but its bounce test compares it with
the window's edges. Every enemy from the fourth platform of a level on
(x 800 and beyond) therefore starts with its right edge beyond the window, and
the bounce rule makes it step back and forth between two positions forever.
`Enemies.BounceBeyondWindowJitters` states this. This is how the game behaves
(those enemies jitter in place instead of patrolling), not something the model changes.

## Model

| member | source | states |
|---|---|---|
| Geometry.At | Projekt/nao_game/nao_showgame_v3.py:137-138 | a sprite's rectangle has its top-left corner where it was placed and the size of its image |
| Geometry.WithBottom | Projekt/nao_game/nao_showgame_v3.py:174 | assigning the bottom edge puts the bottom exactly there and keeps x, width and height |
| Physics.Spawn | Projekt/nao_game/nao_showgame_v3.py:133-142 | a new player is at rest, not on the ground, at animation frame 0 and standing |
| Physics.Cycle | Projekt/nao_game/nao_showgame_v3.py:179-183 | an animation counter inside its period stays inside it and advances by one modulo the period |
| Physics.ImageIndex | Projekt/nao_game/nao_showgame_v3.py:183 | a counter in a two-image cycle selects image 0 or 1, image 1 exactly in the second half |
| Physics.Animate | Projekt/nao_game/nao_showgame_v3.py:179-183 | the walk animation leaves position and speed alone, moves the counter on by one and wraps it to 0 at 10, and shows walk image 1 exactly in the second half of the cycle (frames 5-9), image 0 in the first |
| Physics.Dx | Projekt/nao_game/nao_showgame_v3.py:145-153 | the walking step is -5, 0 or 5; it is negative exactly when LEFT is held and positive exactly when RIGHT is held without LEFT |
| Physics.Fall | Projekt/nao_game/nao_showgame_v3.py:161-164 | gravity adds exactly 1 below the fall speed 10, and at or above it the speed is exactly 10 |
| Physics.Advance | Projekt/nao_game/nao_showgame_v3.py:144-168 | before collisions the player moves by the walking step and the new speed, and the speed is gravity applied to -15 after a jump from the ground or to the old speed otherwise; the pose is standing exactly when no arrow key is held, and then the walk counter stays put; with an arrow key held the counter moves on by one modulo 10 and the walk image is 1 exactly in the second half of the cycle |
| Physics.Settle | Projekt/nao_game/nao_showgame_v3.py:170-177 | the landing loop leaves the player on the ground exactly when it was not rising and overlapped some platform; it then stands with its bottom on a platform's top at speed 0, lands once or more, and never moves sideways; otherwise nothing changes |
| Physics.Landings | Projekt/nao_game/nao_showgame_v3.py:170-177 | the landing loop fires one landing reaction per platform it snapped onto and nothing else |
| Physics.UpdateLog | Projekt/nao_game/nao_showgame_v3.py:155-177 | a player update asks for one jump reaction when it jumped, one landing reaction per landing, and nothing else |
| Physics.Update | Projekt/nao_game/nao_showgame_v3.py:144-183 | one player update: the left/right displacement with LEFT priority; in the air the speed is gravity applied to -15 after a jump or to the old speed, and the player drops by that speed; on the ground exactly when the moved player overlapped a platform while not rising, then at speed 0 standing on a platform's top; speed exactly -14 after the tick exactly when the player jumped; the walk counter moves on by one modulo 10 while an arrow key is held and stays put otherwise, with walk image 1 exactly in the second half of the cycle; one jump reaction per jump and landing reactions exactly when on the ground |
| Physics.VelocityStaysBounded | Projekt/nao_game/nao_showgame_v3.py:155-164 | over any run from a speed in [-14, 10] the speed stays in [-14, 10] |
| Physics.AnimationStaysInCycle | Projekt/nao_game/nao_showgame_v3.py:179-183 | over any run the walk counter stays in [0, 10) and the walk image shown is the one the counter selects, 0 or 1 |
| Oscillators.Shuttle | Projekt/nao_game/nao_showgame_v4.py:183-186 | a shuttle moves by speed times direction and reverses exactly when it ends up outside [start, start + range] |
| Oscillators.ShuttleInvInit | Projekt/nao_game/nao_showgame_v4.py:173-181 | a platform created at its start moving forward satisfies the shuttle invariant |
| Oscillators.ShuttleInvStep | Projekt/nao_game/nao_showgame_v4.py:183-186 | one shuttle step keeps a unit direction, a position at most one step outside the band, and heading back when outside |
| Oscillators.ShuttleBounded | Projekt/nao_game/nao_showgame_v4.py:183-186 | after any number of steps a shuttle is within [start - speed, start + range + speed] with direction +1 or -1 |
| Oscillators.Patrol | Projekt/nao_game/nao_showgame_v2.py:191-194 | a patrol moves by its speed, keeps the speed's magnitude and negates it exactly when more than range away from its start |
| Oscillators.PatrolInvStep | Projekt/nao_game/nao_showgame_v2.py:208-211 | one patrol step keeps the patroller within range + speed of its start and heading back when beyond range |
| Oscillators.PatrolBounded | Projekt/nao_game/nao_showgame_v2.py:191-194 | a patrol started at its start keeps its speed magnitude and never strays more than range + speed from it |
| Oscillators.EdgeBounce | Projekt/nao_game/nao_showgame_v3.py:196-199 | the enemy moves by twice its direction and reverses exactly when its left edge is left of 0 or its right edge right of 800 |
| Oscillators.EdgeBounceIsShuttle | Projekt/nao_game/nao_showgame_v5.py:159-162 | the edge bounce is the shuttle over [0, 800 - width] at speed 2 |
| Oscillators.EdgeBounceStuckBeyondWindow | Projekt/nao_game/nao_showgame_v5.py:159-162 | an enemy whose right edge is more than 2 right of the window reverses every tick and is back where it was after two ticks |
| Oscillators.Drift | Projekt/nao_game/nao_showgame_v4.py:165-166 | the v4 enemy moves by twice its direction and never turns |
| Oscillators.DriftLinear | Projekt/nao_game/nao_showgame_v4.py:165-166 | after n ticks a forward v4 enemy is exactly 2n to the right of where it started |
| Enemies.NewEnemy | Projekt/nao_game/nao_showgame_v3.py:187-194 | a new enemy is placed where asked, with its image's size, moving right at animation frame 0 |
| Enemies.NextFrame | Projekt/nao_game/nao_showgame_v5.py:165-169 | the enemy animation moves its counter on by one and wraps it to 0 at the period, and shows image 0 in the first half of the cycle and image 1 in the second |
| Enemies.Bounce | Projekt/nao_game/nao_showgame_v3.py:196-203 | the v3/v5 enemy moves by twice its direction, reverses exactly when off either window edge, moves its animation counter on by one modulo the period and shows image 1 exactly in the second half of the cycle |
| Enemies.Walk | Projekt/nao_game/nao_showgame_v4.py:165-170 | the v4 enemy moves 2 in its direction, which never changes, moves its animation counter on by one modulo the period and shows image 1 exactly in the second half of the cycle |
| Enemies.BounceKeepsBouncing | Projekt/nao_game/nao_showgame_v3.py:196-203 | a bounce keeps the enemy's direction at +1 or -1, within one step of the window, and its animation counter in the cycle |
| Enemies.BounceBeyondWindowJitters | Projekt/nao_game/nao_showgame_v5.py:159-162 | an enemy with its right edge more than 2 beyond the window is back where it was, with the same direction, every second tick |
| FallWatch.Observe | Projekt/nao_game/nao_showgame_v3.py:286-291 | the fall counter counts up while falling, resets to 0 otherwise, and fires exactly on a falling tick that brings it to 20 |
| FallWatch.Detect | Projekt/nao_game/nao_showgame_v2.py:258-264 | a loop pass's fall check counts up while the player falls faster than the threshold in the air, resets otherwise, and asks for the fall reaction exactly on the falling tick that brings the counter to 20 |
| FallWatch.UpdateWatched | Projekt/nao_game/nao_showgame_v4.py:271-281 | the player update followed by the fall check on the moved player: the counter and the fall reaction as in the fall check, one jump reaction per jump, no applause, and no reaction other than jump, landing and fall |
| FallWatch.OnceInStreak | Projekt/nao_game/nao_showgame_v3.py:286-291 | within an unbroken falling streak the counter goes up by the streak's length and fires exactly once if it crosses 20 |
| FallWatch.StreakFromRest | Projekt/nao_game/nao_showgame_v4.py:276-281 | a streak from a reset counter fires once if it lasts 20 ticks or more and never otherwise |
| FallWatch.QuietAfterFire | Projekt/nao_game/nao_showgame_v5.py:247-253 | after a tick that fired, further falling ticks never fire |
| FallWatch.OncePerStreak | Projekt/nao_game/nao_showgame_v5.py:247-253 | after the reaction fires at tick i it does not fire again at a later tick j unless some tick in between was not falling |
| Menu.Toggle | Projekt/nao_game/nao_showgame_v3.py:252-253 | UP or DOWN always selects the other entry |
| Menu.Speech | Projekt/nao_game/nao_showgame_v3.py:256-261 | a closing line is said exactly when the robot is connected, and nothing otherwise |
| Menu.Press | Projekt/nao_game/nao_showgame_v3.py:251-263 | UP/DOWN toggle the selection silently, RETURN on START starts the game and RETURN on STOP exits, saying "let's play" or goodbye only to a connected robot; other keys do nothing |
| Menu.ToggleN | Projekt/nao_game/nao_showgame_v4.py:242-243 | toggling n times gives back the same entry exactly when n is even |
| Menu.LoopWithoutReturn | Projekt/nao_game/nao_showgame_v3.py:245-253 | the menu loop (`Menu.Loop`) without RETURN stays open, says nothing, and selects the start entry toggled once per UP/DOWN press |
| Menu.MenuDecision | Projekt/nao_game/nao_showgame_v4.py:226-253 | the menu loop (`Menu.Loop`) closes at the first RETURN; the game starts exactly when an even number of UP/DOWN presses came before it, and the greeting or farewell is the only thing said, and only to a connected robot |
| Stage.Latch | Projekt/nao_game/nao_showgame_v3.py:294-296 | the level is done exactly when it already was or the player is right of 740; applause exactly when it becomes done on this tick |
| Stage.LatchFiresOnce | Projekt/nao_game/nao_showgame_v2.py:274-276 | over a run the applause fires at most once, never once the level is done, and exactly once if the player ever gets right of 740 |
| GameV3.Begin | Projekt/nao_game/nao_showgame_v3.py:206-223 | the game starts with the player at rest at (100, 400), one enemy, a reset fall timer and the level not done |
| GameV3.Tick | Projekt/nao_game/nao_showgame_v3.py:269-296 | one loop pass: the player update against the fixed course, every enemy bounced, the fall counter with threshold 6 firing one fall reaction on its twentieth falling tick, and the latch applauding once on crossing 740 |
| GameV3.ApplauseAtMostOnce | Projekt/nao_game/nao_showgame_v3.py:293-296 | in a whole game the applause fires at most once and never after the level is done |
| GameV3.EnemiesStayOk | Projekt/nao_game/nao_showgame_v3.py:196-203 | every enemy keeps a unit direction, stays within one step of the window and keeps its animation in range over a whole game |
| GameV4.NewPlatform | Projekt/nao_game/nao_showgame_v4.py:173-181 | a moving platform starts at its start position heading right |
| GameV4.PlatformUpdate | Projekt/nao_game/nao_showgame_v4.py:183-186 | a moving platform only changes x, keeps the shuttle invariant and stays within one step of its band; a speed-0 platform never moves |
| GameV4.Levels | Projekt/nao_game/nao_showgame_v4.py:189-212 | there are two levels and every platform of each starts inside its band |
| GameV4.Begin | Projekt/nao_game/nao_showgame_v4.py:214-223 | the game starts on level 0 with its platforms and enemies and the player at rest at (100, 400) |
| GameV4.Advance | Projekt/nao_game/nao_showgame_v4.py:283-300 | right of 740 the next level is loaded with the player moved to (50, 500) and applause; past the last level the game is won with the congratulation; otherwise nothing changes |
| GameV4.Move | Projekt/nao_game/nao_showgame_v4.py:270-281 | the player is updated against the current platforms, every enemy walks on, every platform takes its step and keeps its band, the fall counter with threshold 6 counts up or resets and fires the fall reaction on its twentieth falling tick, one jump reaction per jump, the level is unchanged and nothing applauds |
| GameV4.Complete | Projekt/nao_game/nao_showgame_v4.py:283-300 | after the moves: left of 740 the world and reactions are those of the moves; right of it the next level's platforms and enemies are loaded with one more applause and the fall counter and speed carried over, or the game is won after the last level; no fall reaction is added |
| GameV4.Tick | Projekt/nao_game/nao_showgame_v4.py:258-300 | one loop pass: left of 740 exactly the moves (player, walking enemies, platforms, fall counter); right of it the next level's platforms and enemies with one applause and the fall counter carried over, or the win after the last level; fall reactions only from the fall counter; speed at most 10; platforms stay in their bands |
| GameV4.PlatformsStayInBand | Projekt/nao_game/nao_showgame_v4.py:183-186 | while the game runs, across level changes, every platform keeps a unit direction and stays within one step of its band |
| GameV4.VelocityBoundedAcrossLevels | Projekt/nao_game/nao_showgame_v4.py:135-137 | while the game runs the player's speed stays in [-14, 10], across level changes |
| GameV2.Clamp | Projekt/nao_game/nao_showgame_v2.py:151 | the player's x is kept in [0, 800 - width], is unchanged when already inside, and is the nearest point of that range |
| GameV2.LiftUpdate | Projekt/nao_game/nao_showgame_v2.py:208-211 | the lift moves vertically only, keeps its speed magnitude, reverses exactly when more than its range from its start, and keeps the patrol invariant |
| GameV2.EnemyUpdate | Projekt/nao_game/nao_showgame_v2.py:191-194 | the v2 enemy moves by its speed, reverses exactly when more than its range from its start, and keeps the patrol invariant |
| GameV2.Board | Projekt/nao_game/nao_showgame_v2.py:164-170 | boarding a lift puts the player's bottom on the lift's top and then moves the player with the lift |
| GameV2.Ride | Projekt/nao_game/nao_showgame_v2.py:163-171 | the lift loop puts the player on a lift exactly when it was not rising and overlapped one; it then stands on a lift's moved top at speed 0; with lifts that do not move sideways its x is kept |
| GameV2.RideOne | Projekt/nao_game/nao_showgame_v2.py:164-170 | boarding a single lift places the player on its top shifted by the lift's motion, at rest and on the ground |
| GameV2.LandAll | Projekt/nao_game/nao_showgame_v2.py:153-171 | the two landing loops: without a lift to board the result is exactly that of the fixed-platform loop; boarding puts the player on a lift's moved top at speed 0; lifts that do not move sideways keep x |
| GameV2.PlayerUpdate | Projekt/nao_game/nao_showgame_v2.py:125-171 | the v2 player update: speed at most 10; x is the clamped walking step unless a lift carries the player sideways; after overlapping a fixed platform while not rising it stands on a fixed platform's top at speed 0; touching nothing it keeps the clamped moved rectangle and speed; boarding a lift puts it on a lift's moved top at speed 0; one jump reaction per jump, landing reactions exactly when on the ground |
| GameV2.Respawn | Projekt/nao_game/nao_showgame_v2.py:269-270 | a hit player is put back at (100, 400) at rest, keeping its size, ground flag and walk animation |
| GameV2.Contact | Projekt/nao_game/nao_showgame_v2.py:267-271 | touching any enemy sends the player back to the spawn at rest with a fall reaction; without contact nothing changes |
| GameV2.Checks | Projekt/nao_game/nao_showgame_v2.py:258-276 | after the moves: the fall counter with threshold 6 on the moved player, then back to the spawn on enemy contact with a fall reaction, then the latch; the fall reactions are the counter's plus at least one exactly on contact |
| GameV2.Audience | Projekt/nao_game/nao_showgame_v2.py:248-252 | the audience reactions of a tick: one cheer per C press, one boo per B press, nothing for other keys |
| GameV2.React | Projekt/nao_game/nao_showgame_v2.py:249-252 | C asks for a cheer, B for a boo, any other key for nothing |
| GameV2.AudienceInOrder | Projekt/nao_game/nao_showgame_v2.py:246-252 | the audience reactions follow the key presses in order |
| GameV2.Begin | Projekt/nao_game/nao_showgame_v2.py:214-234 | the game starts with the player at (100, 400), one lift, two enemies and the level not done |
| GameV2.Tick | Projekt/nao_game/nao_showgame_v2.py:237-276 | one loop pass: one cheer per C and one boo per B pressed, the player update, lifts and enemies each take their step, the fall counter with threshold 6 counts up or resets and fires on its twentieth falling tick, back to the spawn at rest exactly when an updated enemy touches the player (size, ground flag and animation kept, with at least one more fall reaction), and the latch applauds once on crossing 740 |
| GameV2.ApplauseAtMostOnce | Projekt/nao_game/nao_showgame_v2.py:273-276 | in a whole game, whatever the audience presses, the applause fires at most once and never after the level is done |
| GameV2.AudienceHeard | Projekt/nao_game/nao_showgame_v2.py:246-252 | over a whole game there is exactly one cheer per C and one boo per B pressed |
| GameV5.PlatformUpdate | Projekt/nao_game/nao_showgame_v5.py:143-147 | a fixed platform never changes; a movable one only changes x, keeps its direction at +1 or -1 and stays within 2 of its band |
| GameV5.SpawnsSound | Projekt/nao_game/nao_showgame_v5.py:184-185 | every generated enemy belongs to a platform whose draw asked for one |
| GameV5.SpawnsComplete | Projekt/nao_game/nao_showgame_v5.py:184-185 | every platform whose draw asked for an enemy gets it |
| GameV5.CreateLevel | Projekt/nao_game/nao_showgame_v5.py:172-187 | a generated level has ten platforms 250 apart from its start, heights in [300, 500], travel in [100, 300] when movable and 0 when not, all in their bands; an enemy stands 50 right of and 40 above a platform exactly when that platform's draw asked for one |
| GameV5.Begin | Projekt/nao_game/nao_showgame_v5.py:189-205 | the program starts in the menu with the platforms and enemies of the first level generated from 0, the player fresh at (100, 400), no scroll, the level end at 2500 and the fall counter at 0; the player is in view and before the level end, and every platform in its band |
| GameV5.Scroll | Projekt/nao_game/nao_showgame_v5.py:270-272 | the view never moves left, keeps the player at most 400 right of its left edge, and moves only to put the player exactly there |
| GameV5.Press | Projekt/nao_game/nao_showgame_v5.py:212-228 | in the menu S starts the game saying so and Q quits, silently; once playing P applauds and F fires the fall reaction and nothing reopens the menu |
| GameV5.MenuIgnoresGameKeys | Projekt/nao_game/nao_showgame_v5.py:216-223 | without S the menu stays up and fires no reaction, and quits exactly when Q was pressed |
| GameV5.PlayingStaysPlaying | Projekt/nao_game/nao_showgame_v5.py:224-228 | once playing, keys never bring back the menu or quit, there is one applause per P and one fall reaction per F, and nothing else is fired |
| GameV5.MenuStarts | Projekt/nao_game/nao_showgame_v5.py:217-219 | in the menu, a batch of key presses with S and without Q starts the game, does not quit, and says "the game begins" exactly once |
| GameV5.PressesFacts | Projekt/nao_game/nao_showgame_v5.py:212-228 | the key presses of a loop pass (`GameV5.Presses`): in the menu without S nothing is said and the program quits exactly on Q; with S and without Q the game starts with the start speech said once; once playing it stays playing with one applause per P and one fall reaction per F |
| GameV5.Move | Projekt/nao_game/nao_showgame_v5.py:240-253 | the player is updated against the current platforms, every platform takes its step and keeps its band, every enemy bounces, the fall counter with threshold 6 counts up or resets and fires on its twentieth falling tick, one jump reaction per jump; scroll, menu and level end are untouched and nothing applauds |
| GameV5.Extend | Projekt/nao_game/nao_showgame_v5.py:256-268 | the extension applauds, appends a ten-platform level starting at the old level end, keeps the existing platforms and enemies, and moves the level end 2500 further |
| GameV5.FinishAsWritten | Projekt/nao_game/nao_showgame_v5.py:255-272 | as written: the level is extended exactly when the player's window position exceeds the level end; otherwise only the view scrolls |
| GameV5.Finish | Projekt/nao_game/nao_showgame_v5.py:255-272 | corrected: the level is extended exactly when the player's level position exceeds the level end, so the player stays at or before the level end |
| GameV5.SimulateAsWritten | Projekt/nao_game/nao_showgame_v5.py:240-272 | a running tick as written: the player update, the fall counter, the scroll rule; when the window position is not past the level end the platforms and enemies just move and nothing applauds, otherwise one applause and the level end moves 2500; only jump, landing, fall and applause reactions |
| GameV5.Simulate | Projekt/nao_game/nao_showgame_v5.py:240-272 | a running tick with the corrected test: the same, with the level position compared; past the end one applause, ten more platforms after the moved ones and the level end 2500 further; only jump, landing, fall and applause reactions |
| GameV5.SimulateKeepsInView | Projekt/nao_game/nao_showgame_v5.py:270-272 | after every running tick the player is at most 400 right of the view's left edge |
| GameV5.ExtensionUnreachable | Projekt/nao_game/nao_showgame_v5.py:256 | as written, from any in-view state the level-end test never fires, nothing applauds and no platform is added |
| GameV5.NeverExtended | Projekt/nao_game/nao_showgame_v5.py:256-268 | as written, however long the game runs, the level end and the platform count never change |
| GameV5.AsWrittenMissesLevelEnd | Projekt/nao_game/nao_showgame_v5.py:256 | a player at 2505 in a level ending at 2500, with the view at 2100, is past the end but the as-written test does not fire |
| GameV5.SimulateStaysAhead | Projekt/nao_game/nao_showgame_v5.py:256-268 | with the corrected test one tick keeps the player at or before the level end and the platforms in their bands |
| GameV5.LevelStaysAhead | Projekt/nao_game/nao_showgame_v5.py:256-268 | with the corrected test the player never gets past the level end and every platform stays in its band, however long the game runs |
| GameV5.Tick | Projekt/nao_game/nao_showgame_v5.py:208-272 | one pass of the main loop as written: in the menu without S nothing moves or is said and the program quits exactly on Q; with S and no Q the game starts with the start speech said once and runs the as-written tick at once; once playing, the as-written tick plus one applause per P and one fall reaction per F pressed; from an in-view state the tick itself never applauds and the level end never moves |
| GameV5.TickCorrected | Projekt/nao_game/nao_showgame_v5.py:208-272 | the main loop with the corrected level-end test: the same menu behaviour, S starting the corrected tick with the start speech said once; once playing, the corrected tick plus one applause per P and one fall reaction per F pressed, and a level end ahead of the player stays ahead of it |
| SuperNao.Begin | Projekt/superNAO/superNAO.py:99-104 | the game starts with the player at rest at (100, 400) and the falling timer at 0 |
| SuperNao.Tick | Projekt/superNAO/superNAO.py:107-127 | one loop pass: the player update against the fixed course, the falling timer with threshold 5, and the falling warning said exactly on the twentieth falling tick when connected; no reaction at all when disconnected |
| SuperNao.DisconnectedIsSilent | Projekt/superNAO/superNAO.py:118-127 | without a robot connection the game fires no reaction and the player moves exactly as with one |

## Left out

- Drawing, images, fonts, sounds, the frame clock and the screen: only their
  effect on the state is modelled. Image sizes are parameters (`Size`).
- The robot calls (speech, LEDs, motions, the `ALMemory` fall event and its
  subscriber, `time.sleep` inside the applause): each reaction is one log
  entry. The wording of speech is reduced to a `Phrase`.
- The window close event (QUIT) and `sys.exit`. In the game loops of v2, v3
  and v4 closing the window says goodbye to a connected robot and stops the
  program; the v3/v4 menus and v5 stop silently. None of this is modelled.
- The reaction helpers of v2–v5 decide inside themselves whether the robot is
  connected; the model logs each call to them either way. Only the menu
  speech of v3/v4 and superNAO, where the loop checks the connection itself,
  take the connection as a parameter.
- `random` in v5: the draws are parameters, constrained to the ranges the
  calls can return. The 40 % enemy chance is a boolean per draw.
- pygame/test.py, Projekt/Eddy_Leds.py and Projekt/test_naoqi.py are not part
  of this model: they do not touch the game logic.
- GameV2.PlayerUpdate: when the player boards a lift, the contract states
  that it stands on some lift's moved top, not which lift; `GameV2.Ride`
  states the one-lift case exactly.
- GameV2.Checks: on enemy contact the number of fall reactions is stated as
  at least one, not exactly: after the first contact the player stands at
  the spawn, and whether a later enemy also touches it there depends on
  where the enemies are.
- Physics.Update: the vertical position after landing is stated as "on the
  top of some platform", not which one. The landing loop snaps onto every
  overlapping platform in order, so it is the last one still overlapped.
- The Python sprite groups iterate in insertion order. The model keeps every
  collection as a sequence in that order.

## Findings

| source | as written | input that shows it | evidently intended | confidence | as-written member | corrected member |
|---|---|---|---|---|---|---|
| Projekt/nao_game/nao_showgame_v5.py:256 | the level-end test compares the player's position in the window (`x - scroll`) with the level end, which is in level coordinates | the scroll rule keeps `x - scroll` at most 400, and one tick adds at most 5, while the level end starts at 2500. A player at x 2505 with the view at 2100 is past the end, but 405 > 2500 is false. The next level is never generated, and the player walks off the last platform | compare the player's level position `x` with the level end, so that a new level is appended whenever the player passes the end | high (proved; not executed) | GameV5.ExtensionUnreachable | GameV5.LevelStaysAhead |

`GameV5.NeverExtended` lifts the as-written result to whole runs, and
`GameV5.AsWrittenMissesLevelEnd` gives the concrete input. `GameV5.Tick` is
the main loop as written, with the as-written check; `GameV5.TickCorrected`,
`GameV5.Simulate` and `GameV5.Run` use the corrected check (`GameV5.Finish`).
