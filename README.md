# CLIBasedGames in Dafny

A model of five terminal games and the properties their rules guarantee.

- **SpyTerminal** is a shell-like spy game. It has a small virtual file system
  (`cd`, `ls`, `cat`, `grep`, `history`), three one-shot story flags and a
  bomb. The bomb is armed in `bomb_module` with a random countdown of 20 to 30
  seconds and defused with the code `1-4-1`.
- **TermiQuest** is a curses dungeon crawler. It generates a 40×20 map of walls,
  treasures, traps, enemies and one exit. The player moves with the arrow keys,
  enemies wander, and a battle follows when the player meets an enemy.
- **NeonRacer** is a curses racer. Each frame the track scrolls down one row and
  a new random row comes in at the top. Obstacles and enemy cars end the race
  unless a shield power-up is active. Power-ups give 50 frames of shield. A
  `speed` counter drops as the score grows and is handed to `stdscr.timeout`.
- **Dungeon** is a text adventure over seven rooms. Entering a room runs its
  event: a trap, a riddle, a treasure, an enemy or the boss. Battles are turn
  by turn, with attack, defend and item actions. The inventory holds potions
  and shields.
- **NeuroHack** is a narrative game of three missions. Each mission may be
  skipped, succeed, or fail and be retried. A mission that succeeds restores
  memory, and two restored memories lead to the "liberation" ending.

Modules:

| file | module | what it holds |
|---|---|---|
| `util.dfy` | `Util` | `Option`, `Result`, `Min`, `Max` |
| `py_str.dfy` | `PyStr` | the Python `str` operations the games use: `strip`, `split()`, `split` on the bar character, `splitlines`, `in` |
| `spy_fs.dfy` | `SpyFs` | the virtual file system of SpyTerminal |
| `spy_bomb.dfy` | `SpyBomb` | the bomb and its countdown loop |
| `spy_terminal.dfy` | `SpyTerminal` | the command interpreter, as functions on a state value and as the `Game` class |
| `termi_quest.dfy` | `TermiQuest` | map generation on an `array2<char>`, the player and enemy classes, battles, and the main loop |
| `neon_racer.dfy` | `NeonRacer` | the track, new rows, scrolling, the shield power-up, and the frame loop |
| `dungeon.dfy` | `Dungeon` | rooms, the inventory, battles, events, and the game loop |
| `neuro_hack.dfy` | `NeuroHack` | the glitch filter, voice moods, missions, and the ending |

Random draws (`random.randint`, `random.random`, `random.choice`,
`random.shuffle`) become parameters, and each is constrained to the range the
source draws from. Typed input becomes a parameter as well, or a finite script
of inputs. Each imperative piece of the source stays imperative. Map generation
writes into an `array2<char>`. The classes keep their fields, and their methods
update them in place. Each method states its new state, or its result,
through a pure function. The properties of the games are proved about those
functions, and the methods inherit them.

## Model

| member | source | states |
|---|---|---|
| `PyStr.StripIsTrim` | SpyTerminal.py:218 | `strip()` removes exactly the leading and trailing whitespace, where whitespace is the full `str.isspace()` set: `\t`-`\r`, 0x1C-0x1F, the space, 0x85, 0xA0 and the Unicode space separators. What it returns is a slice of the input that neither starts nor ends with whitespace. |
| `PyStr.StripIdempotent` | SpyTerminal.py:218 | Stripping a stripped line changes nothing, so history entries are stored already stripped. |
| `PyStr.WordsAreWords` | SpyTerminal.py:240 | Each piece of `split()` is non-empty and contains no whitespace. |
| `PyStr.WordsKeepNonSpace` | SpyTerminal.py:240 | `split()` keeps every non-whitespace character, in order. |
| `PyStr.WordsOfJoin` | SpyTerminal.py:240 | `split()` of words joined by spaces gives back those words. |
| `PyStr.SplitPiecesFree` | SpyTerminal.py:235 | No piece of `split` on the bar character contains the separator. |
| `PyStr.JoinSplit` | SpyTerminal.py:235 | Joining the pieces of `split` on the bar character with the separator gives back the line. |
| `PyStr.SplitJoin` | SpyTerminal.py:235 | Splitting separator-free pieces joined by the separator gives back those pieces. |
| `PyStr.LinesAreLines` | SpyTerminal.py:337 | No line of `splitlines()` contains a newline. |
| `PyStr.JoinLines` | SpyTerminal.py:337 | Joining the lines with newlines gives back the text, apart from one trailing newline. |
| `PyStr.LinesOfJoin` | SpyTerminal.py:337 | `splitlines()` of newline-terminated lines gives back those lines. |
| `PyStr.Contains` | SpyTerminal.py:338 | `pattern in line` holds exactly when the pattern occurs at some index of the line. |
| `SpyFs.Find` | SpyTerminal.py:153-154 | A child is found exactly when its name is among the children's names, and what is found has that name. |
| `SpyFs.Put` | SpyTerminal.py:83 | After `children[child.name] = child`, that name maps to the child and every other name is unchanged. |
| `SpyFs.PutNames` | SpyTerminal.py:83 | Storing under an existing name keeps the names and their order. A new name goes last. |
| `SpyFs.PutKeepsOthers` | SpyTerminal.py:83 | After the store, every child is the new one or was there before. |
| `SpyFs.AddChild` | SpyTerminal.py:80-83 | `add_child` raises exactly when the parent is a file. Otherwise the child is stored under its name and the other children are kept. |
| `SpyFs.AddChildWellFormed` | SpyTerminal.py:80-83 | Adding a child keeps sibling names distinct at every level. |
| `SpyFs.DirWith` | SpyTerminal.py:93-107 | A new directory with one file added holds that file and is well formed. |
| `SpyFs.PopulateFs` | SpyTerminal.py:87-146 | The dossier is a well-formed directory called "root". |
| `SpyFs.WalkAppend` | SpyTerminal.py:148-157 | Resolving `p + q` means resolving `p`, then resolving `q` from the node reached. |
| `SpyFs.WalkStopsAtMissing` | SpyTerminal.py:152-156 | Once a name on the path is missing, the whole path resolves to `None`. |
| `SpyFs.WalkThroughFileFails` | SpyTerminal.py:152-156 | A path that continues below a file resolves to `None`. |
| `SpyFs.GetNodeParent` | SpyTerminal.py:148-157 | Where `p + [x]` resolves, `p` resolves to a directory. |
| `SpyBomb.AcceptsPadded` | SpyTerminal.py:188 | The code is accepted with a trailing 0x1F or a leading no-break space, both of which `strip()` removes. |
| `SpyBomb.DefuseState` | SpyTerminal.py:186-192 | Only the code `1-4-1` (after stripping) sets `defused`, and nothing clears it. |
| `SpyBomb.TickState` | SpyTerminal.py:171-184 | One check of the countdown loop. The bomb explodes only if the countdown has run out and the bomb is not defused. While the loop keeps running it reports the time left. |
| `SpyBomb.DefusedNeverExplodes` | SpyTerminal.py:171-192 | A bomb that is defused and has not exploded never explodes, whatever events follow. |
| `SpyBomb.CodeInTimeSaves` | SpyTerminal.py:171-192 | If the right code is entered before any check at or past the countdown, the bomb never explodes. |
| `SpyBomb.StoppedStaysQuiet` | SpyTerminal.py:166-184 | A bomb whose countdown loop is not running neither explodes nor starts running. |
| `SpyBomb.Bomb.constructor` | SpyTerminal.py:161-164 | A new bomb has the given countdown, is not running, is not defused and has not exploded. |
| `SpyBomb.Bomb.StartCountdown` | SpyTerminal.py:166-169 | Starting the countdown sets only `running`. |
| `SpyBomb.Bomb.AttemptDefuse` | SpyTerminal.py:186-192 | The result is true exactly for the correct code, and the new state is `DefuseState`. |
| `SpyBomb.Bomb.Tick` | SpyTerminal.py:171-184 | One check of `_run_countdown` on the object, matching `TickOutput` and `TickState`. |
| `SpyTerminal.AfterNothing` | SpyTerminal.py:236-237 | Printing nothing before a step leaves the step as it is. |
| `SpyTerminal.AfterAfter` | SpyTerminal.py:236-237 | The output of piped commands is their outputs concatenated, in order. |
| `SpyTerminal.EntriesNames` | SpyTerminal.py:282-292 | `ls` lists the children's names in insertion order and marks directories with "/". |
| `SpyTerminal.JoinIsSingle` | SpyTerminal.py:386-393 | `"/".join(path)` equals a slash-free name exactly when the path is that one name. So only the top-level `missions` and `bomb_module` trigger the story. |
| `SpyTerminal.StoryProgress` | SpyTerminal.py:385-394 | The first entry into `/missions` sets `mission_started` and announces the mission. Nothing else changes. |
| `SpyTerminal.CdUp` | SpyTerminal.py:299-304 | `cd ..` below the root drops the last directory and keeps the state valid. |
| `SpyTerminal.CdInto` | SpyTerminal.py:305-311 | `cd name` enters the directory exactly when `name` resolves to a directory. Flags only grow, and only `cwd` and the flags change. |
| `SpyTerminal.Cd` | SpyTerminal.py:294-311 | `cd` with no argument prints the usage message and changes nothing. `..` at the root prints "Already at root" and changes nothing. `..` below the root drops the last directory and prints nothing. A name enters the directory exactly when one exists there. Only `cwd` and the story flags can change. |
| `SpyTerminal.Cat` | SpyTerminal.py:313-326 | `cat`: `intel_acquired` becomes set exactly when `classified.txt` is read as a file, and stays set once set. A missing file prints "No such file" and changes nothing. |
| `SpyTerminal.MatchingSound` | SpyTerminal.py:337-340 | Every line `grep` prints contains the pattern and is a line of the file. |
| `SpyTerminal.MatchingComplete` | SpyTerminal.py:337-340 | Every line of the file that contains the pattern is printed. |
| `SpyTerminal.MatchingExact` | SpyTerminal.py:336-342 | `grep` prints exactly the matching lines. "No matches found." appears exactly when no line matches. |
| `SpyTerminal.AsLines` | SpyTerminal.py:337-340 | Each matching line is printed as its own message, in order. |
| `SpyTerminal.HistoryOutput` | SpyTerminal.py:346-348 | `history` numbers the commands from 1, in the order they were typed. |
| `SpyTerminal.ArmBomb` | SpyTerminal.py:350-360 | A bomb is armed exactly in `bomb_module` when none exists. Its countdown is 20 plus the draw, it starts running, and `bomb_engaged` is set. Otherwise nothing changes. |
| `SpyTerminal.Defuse` | SpyTerminal.py:362-373 | With no bomb, "no active bomb" is printed. With a bomb, it becomes defused exactly when it already was or the code is accepted. Nothing else changes. |
| `SpyTerminal.Exec` | SpyTerminal.py:239-268 | A command keeps the state valid. Flags only grow, an armed bomb keeps its countdown and its defusal, and history is untouched. `exit` prints the goodbye and ends the session. An empty command and every command other than `cd`, `cat`, `arm_bomb`, `defuse` and `exit` leave the state as it is. An unknown word prints "Unknown command". |
| `SpyTerminal.HandlePieces` | SpyTerminal.py:234-237 | The pieces of a piped line run in order, with the same guarantees as one command. An `exit` among the pieces ends the session. |
| `SpyTerminal.RunLine` | SpyTerminal.py:216-225 | One line typed at the prompt keeps the state valid, flags only grow, and the bomb is kept. |
| `SpyTerminal.RunLineHistory` | SpyTerminal.py:218-224 | A line adds exactly its stripped form to the history, and only when that form is non-empty and the game is still running. |
| `SpyTerminal.TickMsgs` | SpyTerminal.py:171-184 | A check prints nothing when no countdown runs or when the loop ends quietly after a defusal. Otherwise it prints the one timer message. |
| `SpyTerminal.TimerTick` | SpyTerminal.py:171-184 | A check of the countdown changes only the bomb and `game_over`. The session ends exactly when the bomb goes off. |
| `SpyTerminal.Feed` | SpyTerminal.py:214-225 | A typed line or a countdown check keeps the state valid and the flags and bomb monotone. |
| `SpyTerminal.RunSession` | SpyTerminal.py:214-225 | A whole session keeps the state valid. |
| `SpyTerminal.SessionMonotone` | SpyTerminal.py:203-207 | Over a session, story flags only go from unset to set. An armed bomb keeps its countdown, and once defused it stays defused. |
| `SpyTerminal.ExtendedTrans` | SpyTerminal.py:224 | History extension is transitive. |
| `SpyTerminal.RunLineExtends` | SpyTerminal.py:224 | One line only appends stripped, non-empty commands to the history. |
| `SpyTerminal.FeedExtends` | SpyTerminal.py:224 | One input only appends stripped, non-empty commands to the history. |
| `SpyTerminal.SessionHistory` | SpyTerminal.py:216-225 | Over a session the history only grows, by stripped, non-empty commands. |
| `SpyTerminal.OverMeansIgnored` | SpyTerminal.py:264-266 | After `exit`, typed lines change nothing. Only the countdown goes on. |
| `SpyTerminal.DefusedSessionSafe` | SpyTerminal.py:171-192 | Once the bomb is defused it never explodes, whatever the session does next. |
| `SpyTerminal.Game.constructor` | SpyTerminal.py:196-207 | A new game is at the root with an empty history, all flags unset and no bomb. |
| `SpyTerminal.Game.Step` | SpyTerminal.py:216-225 | One pass of the `run` loop on the object agrees with `RunLine`. |
| `SpyTerminal.Game.HandleCommand` | SpyTerminal.py:234-237 | The object agrees with `HandlePieces` on the `split` on the bar character pieces. |
| `SpyTerminal.Game.ExecutePieces` | SpyTerminal.py:236-237 | The loop over the pieces agrees with `HandlePieces`. |
| `SpyTerminal.Game.ExecutePiece` | SpyTerminal.py:237 | One piece's output is followed by what the remaining pieces do. |
| `SpyTerminal.Game.ExecuteCommand` | SpyTerminal.py:239-268 | The dispatch on the first word agrees with `Exec`. |
| `SpyTerminal.Game.CmdLs` | SpyTerminal.py:282-292 | The object's `ls` output equals `LsOutput`. |
| `SpyTerminal.Game.CmdCd` | SpyTerminal.py:294-311 | The object's `cd` agrees with `Cd`. |
| `SpyTerminal.Game.CheckStoryProgress` | SpyTerminal.py:385-394 | The object's story check agrees with `StoryProgress`. |
| `SpyTerminal.Game.CmdCat` | SpyTerminal.py:313-326 | The object's `cat` agrees with `Cat`. |
| `SpyTerminal.Game.CmdGrep` | SpyTerminal.py:328-344 | The loop over the lines prints `GrepOutput`. |
| `SpyTerminal.Game.CmdHistory` | SpyTerminal.py:346-348 | The loop over the history prints `HistoryOutput`. |
| `SpyTerminal.Game.CmdArmBomb` | SpyTerminal.py:350-360 | The object's `arm_bomb` agrees with `ArmBomb`. |
| `SpyTerminal.Game.CmdDefuse` | SpyTerminal.py:362-373 | The object's `defuse` agrees with `Defuse`. |
| `SpyTerminal.Game.CmdStory` | SpyTerminal.py:375-380 | `story` prints the three flags. |
| `SpyTerminal.Game.Tick` | SpyTerminal.py:171-184 | A countdown check on the object agrees with `TimerTick`. |
| `SpyTerminal.Game.Run` | SpyTerminal.py:214-225 | The `run` loop over a session's inputs agrees with `RunSession`. |
| `SpyTerminal.Game.ReadInput` | SpyTerminal.py:216-225 | One input of the loop is followed by the rest of the session. |
| `TermiQuest.FirstFloor` | TermiQuest.py:76-82 | The exit goes on the first candidate cell that is floor. With no such cell there is no exit. |
| `TermiQuest.GeneratedWalls` | TermiQuest.py:41-52 | The border and every drawn wall cell are walls. |
| `TermiQuest.FeaturesOnFloor` | TermiQuest.py:54-73 | Each cell holds one of the seven tiles. Treasures, traps and enemies are placed only on floor, and each cell keeps the first feature placed on it. |
| `TermiQuest.ExactlyOneExit` | TermiQuest.py:75-82 | At most one cell is the exit. It is in the bottom-right quadrant, and it is the first candidate that was floor. |
| `TermiQuest.GenerateMap` | TermiQuest.py:38-84 | The map written into the array is `Generated` cell by cell, and the exit is the one `FirstFloor` picks. |
| `TermiQuest.BuildBorders` | TermiQuest.py:41-46 | The border cells become walls and the rest stays floor. |
| `TermiQuest.PlaceWalls` | TermiQuest.py:49-52 | Exactly the drawn cells become walls. |
| `TermiQuest.PlaceOnFloor` | TermiQuest.py:54-73 | A drawn cell gets the tile only if it is still floor. |
| `TermiQuest.PlaceExit` | TermiQuest.py:75-82 | The candidates are tried in order, and the exit goes on the first floor cell. |
| `TermiQuest.Moved` | TermiQuest.py:95-101 | The player moves exactly when the target is on the grid and not a wall. Otherwise it stays put. |
| `TermiQuest.MovedStaysInside` | TermiQuest.py:95-101 | On a walled map a player on open ground stays on open ground in the interior. |
| `TermiQuest.Player.constructor` | TermiQuest.py:88-93 | A new player has 100 hp, no gold and two potions. |
| `TermiQuest.Player.Move` | TermiQuest.py:95-101 | The object's move agrees with `Moved`. |
| `TermiQuest.FirstRoomy` | TermiQuest.py:114-121 | The first shuffled direction that leads to an interior floor cell is taken. None is taken when no direction does. |
| `TermiQuest.WanderOneStep` | TermiQuest.py:110-121 | An enemy stays put exactly when no neighbour is interior floor. Otherwise it steps to an adjacent interior floor cell. |
| `TermiQuest.Enemy.constructor` | TermiQuest.py:105-108 | A new enemy stands where it was found, with hp in 20..40. |
| `TermiQuest.Enemy.MoveRandom` | TermiQuest.py:110-121 | The object's move agrees with `Wander`, and hp is kept. |
| `TermiQuest.Snapshot` | TermiQuest.py:215-217 | The grid read is the array, cell by cell. |
| `TermiQuest.RowEnemiesExact` | TermiQuest.py:216-217 | The enemies found in a row are exactly its enemy tiles. |
| `TermiQuest.GridEnemiesExact` | TermiQuest.py:215-217 | The enemies found in the grid are exactly its enemy tiles. |
| `TermiQuest.Positions` | TermiQuest.py:256-257 | The positions of the enemies, in list order. |
| `TermiQuest.SnapshotIs` | TermiQuest.py:210 | A generated map reads as `GenGrid`. |
| `TermiQuest.GeneratedEnemies` | TermiQuest.py:68-73 | The enemy tiles of a generated map all lie in the interior. |
| `TermiQuest.CollectEnemies` | TermiQuest.py:214-220 | Scanning row by row makes one new enemy per enemy tile, in reading order, with the hp drawn for it. Those tiles turn back to floor and no enemy is listed twice. |
| `TermiQuest.ScanRow` | TermiQuest.py:216-220 | The same, for one row. |
| `TermiQuest.Fight` | TermiQuest.py:168-182 | Given enough drawn rounds, the battle loop ends with one side at 0 hp or below. Neither side gains hp. |
| `TermiQuest.FightDamageBound` | TermiQuest.py:168-182 | The player loses at most 15 hp per enemy attack, and the enemy attacks at most `(hp - 1) / 10` times. |
| `TermiQuest.StrongPlayerWins` | TermiQuest.py:164-193 | A player with more than 45 hp always defeats an enemy of at most 40 hp. |
| `TermiQuest.Battle` | TermiQuest.py:164-193 | The object's battle agrees with `Fight`. Gold grows by the reward exactly when the player survives. |
| `TermiQuest.WanderAll` | TermiQuest.py:241-242 | Each enemy of the list moves by its own shuffled directions, and the list keeps its length. |
| `TermiQuest.Hps` | TermiQuest.py:256-260 | The hit points of the enemies, in list order. |
| `TermiQuest.Drop` | TermiQuest.py:260 | `enemies.remove` of the `i`th enemy drops exactly one entry; with no enemy met, nothing is dropped. |
| `TermiQuest.Fought` | TermiQuest.py:252-261 | The enemy fought is the first in list order on the player's cell, and none is fought when the player has just reached the exit. |
| `TermiQuest.PositionsDrop` | TermiQuest.py:260 | Removing an enemy removes its position from the positions of the list. |
| `TermiQuest.HpsDrop` | TermiQuest.py:260 | Removing an enemy removes its hit points from those of the list. |
| `TermiQuest.ListUnchanged` | TermiQuest.py:228-242 | Enemies that did not change keep their positions and hit points. |
| `TermiQuest.ResolvedPastTile` | TermiQuest.py:245-261 | Past any tile but the exit, the turn's outcome is the battle, if any, fought from what the tile left. |
| `TermiQuest.ResolvedBounds` | TermiQuest.py:244-268 | A turn never heals the player nor takes gold away. The exit changes nothing. A turn without a battle only applies the tile. A player above 45 hp after the tile beats the enemy and earns the reward. |
| `TermiQuest.FirstAt` | TermiQuest.py:256-261 | The enemy met is the first in list order at the player's cell. None is met when no enemy is there. |
| `TermiQuest.RemoveAt` | TermiQuest.py:260 | `enemies.remove(enemy)` keeps the others, still distinct. |
| `TermiQuest.Setup` | TermiQuest.py:210-220 | The map is walled and has no enemy tiles. Enemies are off the border with hp 20..40, and they stand exactly on the generated enemy tiles. |
| `TermiQuest.Quest.constructor` | TermiQuest.py:210-220 | The game starts with the player at (1, 1) on the cleared generated map. |
| `TermiQuest.Quest.MoveEnemies` | TermiQuest.py:241-242 | Each enemy makes its own `Wander` move and keeps its hp. The positions become `WanderAll` of the old ones, and the game stays valid. |
| `TermiQuest.Quest.MovedAll` | TermiQuest.py:241-242 | Once the loop has moved every enemy, the positions are the wandered ones and the hit points are kept. |
| `TermiQuest.Quest.MoveOne` | TermiQuest.py:242 | One enemy's move, the others untouched. |
| `TermiQuest.Quest.CheckTile` | TermiQuest.py:245-253 | A treasure adds the gold and a trap takes the damage, and either turns back to floor. The exit ends the game. |
| `TermiQuest.Quest.FindAt` | TermiQuest.py:256-257 | The search loop finds `FirstAt`. |
| `TermiQuest.Quest.CheckBattle` | TermiQuest.py:255-261 | With no enemy at the player's cell nothing changes. Otherwise the first such enemy is fought and removed from the list, and the player's hp and gold become `Battled`: the fight's hp, and the reward only for a survivor. |
| `TermiQuest.Quest.FightAndRemove` | TermiQuest.py:258-260 | The battle, then the enemy leaves the list. The player's hp and gold become `Battled` of the enemy's hp. |
| `TermiQuest.Quest.Remove` | TermiQuest.py:260 | The enemy fought leaves the list, and the other enemies keep their order, positions and hit points. |
| `TermiQuest.Quest.Encounter` | TermiQuest.py:255-268 | The battle, if an enemy stands on the player's cell, then the death check. |
| `TermiQuest.Quest.Aftermath` | TermiQuest.py:252-268 | The exit ends the game before any battle. Otherwise the battle and the death check follow. |
| `TermiQuest.Quest.Step` | TermiQuest.py:222-268 | One turn keeps the game valid. `q` ends it and changes nothing else. Any other key: the player moves by `Moved`; each enemy moves by `WanderAll`; a treasure or trap under the player is applied and turns back to floor, and no other cell changes; the enemy fought is `Fought` and leaves the list; hp and gold become `Resolved`; the game ends exactly on the exit or at 0 hp or below. |
| `TermiQuest.Quest.Advance` | TermiQuest.py:228-268 | A turn with a key other than `q`: the moves, then `Resolve`, with the same effects as `Step`. |
| `TermiQuest.Quest.Moves` | TermiQuest.py:228-242 | The player moves by `Moved` and the enemies by `WanderAll`. Hit points, gold and the list are kept. |
| `TermiQuest.Quest.MovePlayer` | TermiQuest.py:228-236 | The arrow key's move agrees with `Moved`. |
| `TermiQuest.Quest.Resolve` | TermiQuest.py:244-268 | The tile, the battle and the death check keep the game valid. The tile's effect is applied to the map cell only. The enemy fought is `Fought` and leaves the list. Hp and gold become `Resolved`, and the game ends exactly on the exit or at 0 hp or below. |
| `NeonRacer.BorderRow` | NeonRacer.py:73 | The top and bottom rows are all border. |
| `NeonRacer.GenerateInitialMap` | NeonRacer.py:68-84 | The initial track is border on its edges and blank inside. |
| `NeonRacer.Spawn` | NeonRacer.py:92-100 | A draw below 0.03 spawns a power-up, then an enemy up to 0.08 and an obstacle up to 0.18. At 0.18 or above the cell is blank. |
| `NeonRacer.NewRow` | NeonRacer.py:86-101 | A new row is bordered and open, and each inner cell is `Spawn` of its own draw. |
| `NeonRacer.AddNewRow` | NeonRacer.py:86-101 | The loop that builds the row computes `NewRow`. |
| `NeonRacer.ScrollShifts` | NeonRacer.py:196-198 | Scrolling keeps the top border, inserts the new row below it and shifts the rest down by one. |
| `NeonRacer.ScrollKeepsTrack` | NeonRacer.py:196-198 | Scrolling an open row into a well-shaped track keeps it well shaped. |
| `NeonRacer.ClearedKeepsTrack` | NeonRacer.py:218 | Clearing a collected power-up blanks that one cell only, and keeps the track well shaped. |
| `NeonRacer.Moved` | NeonRacer.py:112-118 | The car moves exactly when the target is strictly inside the borders. |
| `NeonRacer.Decay` | NeonRacer.py:120-124 | An active power-up loses one frame and expires at 0. An inactive one is left alone. |
| `NeonRacer.InactiveStays` | NeonRacer.py:120-124 | Without a power-up, updates change nothing. |
| `NeonRacer.PowerUpLasts` | NeonRacer.py:213-215 | A power-up with timer `t` is still active after `n` updates exactly when `n < t`. |
| `NeonRacer.Player.constructor` | NeonRacer.py:105-110 | A new car has 100 hp and no power-up. |
| `NeonRacer.Player.Move` | NeonRacer.py:112-118 | The object's move agrees with `Moved`. |
| `NeonRacer.Player.UpdatePowerup` | NeonRacer.py:120-124 | The object's update agrees with `Decay`. |
| `NeonRacer.SpeedAt` | NeonRacer.py:224-225 | The `speed` counter stays even and between 20 and 100. |
| `NeonRacer.SpeedStep` | NeonRacer.py:220-225 | The speed rule keeps the counter at `SpeedAt(score)`: 2 less every 100 points while above 20. |
| `NeonRacer.Race.constructor` | NeonRacer.py:147-153 | The race starts at score 0 with the car at the bottom centre. |
| `NeonRacer.Race.Frame` | NeonRacer.py:183-229 | `q` ends the race and changes nothing else. Otherwise: the car moves; the track scrolls in the new row; an obstacle or enemy ends the race unless the shield is up; score and combo count as in the source; a power-up is cleared from the track. A frame that goes on collects a power-up as 50 frames of shield and then decays the power-up once. A frame that ends the race leaves the power-up alone. |
| `NeonRacer.Race.Collide` | NeonRacer.py:200-218 | The collision check: game over exactly on a hazard without a shield. A shielded hazard gives +1 combo, and a power-up gives +5 combo and 50 frames of shield. |
| `NeonRacer.Race.Advance` | NeonRacer.py:220-229 | The score goes up by one, the power-up decays and the speed follows `SpeedAt`. |
| `Dungeon.RoomsClosed` | Dungeon.py:173-207 | Every exit of every room leads to a room. `exit` has no event and no options. |
| `Dungeon.Navigate` | Dungeon.py:250-260 | The player moves exactly along a listed option. Any other choice, including "inventory", stays in the room. |
| `Dungeon.Healed` | Dungeon.py:51 | Healing never exceeds `max_hp` and never lowers hp at or below it. |
| `Dungeon.UseItemOn` | Dungeon.py:42-61 | An empty inventory or a missing item uses nothing and changes nothing. Otherwise one of that item is used, all other counts are kept, a potion heals, and no entry is left at zero. |
| `Dungeon.Gain` | Dungeon.py:155-159 | A found item adds one to its count and keeps the others. |
| `Dungeon.Player.constructor` | Dungeon.py:32-37 | A new player has 100 hp, two potions, one shield and no gold. |
| `Dungeon.Player.UseItem` | Dungeon.py:42-61 | The object's `use_item` agrees with `UseItemOn`. |
| `Dungeon.Enemy.constructor` | Dungeon.py:64-68 | An enemy keeps its name, hp, attack and reward. |
| `Dungeon.Damage` | Dungeon.py:102-106 | A raised shield takes 10 off the enemy's hit, never going below 0. |
| `Dungeon.Round` | Dungeon.py:82-108 | A round never heals the enemy, keeps the inventory free of empty entries, and keeps hp at most `max_hp`. |
| `Dungeon.ItemRound` | Dungeon.py:92-95 | The item action leaves the enemy's hp alone and keeps the inventory and hp invariants. |
| `Dungeon.RoundRules` | Dungeon.py:82-108 | An invalid action changes nothing and skips the enemy's turn. Defending takes 10 off the hit. An attack that kills gets no answer, and one that does not kill is answered in full. |
| `Dungeon.ShieldItemGuards` | Dungeon.py:92-95 | Using a shield item takes 10 off the enemy's hit and uses one shield. |
| `Dungeon.FightKeeps` | Dungeon.py:79-110 | A whole battle keeps the inventory and hp invariants and never heals the enemy. |
| `Dungeon.PlayRound` | Dungeon.py:82-108 | One pass of the battle loop on the objects agrees with `Round`. |
| `Dungeon.Battle` | Dungeon.py:74-119 | The battle loop agrees with `Fight`. Gold grows by the reward exactly when the player wins. |
| `Dungeon.Solves` | Dungeon.py:144 | The riddle is solved exactly when "keyboard" occurs in the answer. |
| `Dungeon.Battled` | Dungeon.py:74-119 | After a battle the player has the fight's hp and inventory, and gold grows by the reward only on a win. A loss ends the game, and the player's invariants hold. |
| `Dungeon.EventOf` | Dungeon.py:126-170 | A trap takes its damage. A treasure adds the gold found and maybe one item. The riddle bounces exactly on a wrong answer. Only a battle ends the game, and no event loses gold or breaks the player's invariants. |
| `Dungeon.Stepped` | Dungeon.py:216-260 | A pass of the loop keeps the room in the table and the player's invariants. It never loses gold, and it escapes exactly from `exit`. |
| `Dungeon.PlayedKeeps` | Dungeon.py:210-260 | The whole game keeps the room in the table and the player's invariants, and never loses gold. A game that is over stays as it is. |
| `Dungeon.PlayedEscapes` | Dungeon.py:231-240 | A game that escapes ends in the `exit` room. |
| `Dungeon.Game.constructor` | Dungeon.py:211-212 | The game starts in `start` with a new player. |
| `Dungeon.Game.Trap` | Dungeon.py:127-132 | A trap takes its damage and nothing else. |
| `Dungeon.Game.Healing` | Dungeon.py:134-138 | The healing aura heals up to `max_hp`. |
| `Dungeon.Game.Treasure` | Dungeon.py:151-160 | A treasure adds the gold found and, maybe, one item. |
| `Dungeon.Game.Encounter` | Dungeon.py:162-170 | A battle agrees with `Fight` and `Battled`. Losing ends the game, and winning adds the reward. |
| `Dungeon.Game.RunEvent` | Dungeon.py:224-230 | The room's event runs and leaves the player's hp, inventory and gold, the status and the bounce as `EventOf` says. The player bounces back exactly on a wrong riddle answer, and only a battle ends the game. |
| `Dungeon.Game.Step` | Dungeon.py:216-260 | The game after the pass is `Stepped` of the game before it. A wrong riddle sends the player to `start`. Otherwise the choice is followed. Reaching `exit` is the only escape, and only a battle can end the game otherwise. |
| `Dungeon.Game.Play` | Dungeon.py:210-260 | The game after the loop is `Played` of the game before it over the visits. The loop keeps the game valid and plays every visit while the game goes on. |
| `NeuroHack.GlitchEffect` | NeuroHack.py:28-36 | The result has the message's length. Each character is kept or replaced by the drawn symbol, one of `@#$%&`. |
| `NeuroHack.VoiceMessage` | NeuroHack.py:64-89 | A known mood speaks from its own list, and any other mood speaks from the neutral list. |
| `NeuroHack.Restored` | NeuroHack.py:101-103 | A mission restores one memory exactly when a pass of it succeeded. |
| `NeuroHack.MissionBounds` | NeuroHack.py:91-116 | Each mission restores at most one memory and takes at least one pass. |
| `NeuroHack.Ending` | NeuroHack.py:118-122 | The ending is "liberation" exactly when at least 2 memories were restored, and "reset" otherwise. |
| `NeuroHack.Protocol.constructor` | NeuroHack.py:44-52 | The game starts with no missions run, no memory restored and no ending. |
| `NeuroHack.Protocol.RunMission` | NeuroHack.py:91-116 | Every pass, retries included, adds one to the mission number. Memory grows by one only when the mission succeeds. |
| `NeuroHack.Protocol.DecideEnding` | NeuroHack.py:118-122 | The ending is set from the memory restored. |
| `NeuroHack.Protocol.Run` | NeuroHack.py:135-142 | After the three missions the counters are the passes and successes of the script, and the ending follows from them. |
| `NeuroHack.RestoredThree` | NeuroHack.py:137-139 | The memory restored over the three missions is the sum of theirs. |
| `NeuroHack.RunBounds` | NeuroHack.py:135-142 | At most 3 memories are restored. "liberation" needs two different missions that ended in success. |

## Left out

- Presentation is not modelled: colours, curses windows, ASCII animations, `time.sleep`, screen clearing and the narrative text. Commands report what they print as tagged messages (`Msg`), not as text.
- The SpyTerminal countdown runs in its own thread. Here each of its checks is one atomic `Tick` taken at a given number of elapsed seconds, interleaved between whole commands. Wall-clock time and finer interleavings are not modelled.
- `os._exit(1)` on an explosion, and `exit()` in TermiQuest and Dungeon, end the process. The model ends the session instead.
- End of input and Ctrl-C at the SpyTerminal prompt (and its goodbye message) are not modelled: a session is a finite list of inputs.
- The random number generator is not modelled. Every draw is a parameter in the range the source draws from.
- Floating-point probabilities are not modelled as floats. The NeonRacer thresholds are exact reals. `random.choices` with weights in NeuroHack, and the 10% glitch chance, become a category chosen by the caller.
- `splitlines()` is modelled for `'\n'` only, which is the only line boundary in the file contents.
- Dungeon answers are taken after `.lower().strip()`: the prompts' case folding and trimming are not modelled.
- TermiQuest's exit placement retries until it finds floor. The model tries a finite list of candidate cells, and with no floor among them places no exit.
- Battles (TermiQuest, Dungeon), the Dungeon game loop and NeuroHack retries read unbounded input. The model gives them finite scripts: a Dungeon battle can end `Unfinished` (`OutOfInput`), and a NeuroHack mission is a finite list of passes.
- TermiQuest.Fight: needs at least `enemyHp / 10` rounds of draws, because every hit does at least 10 damage. With fewer draws the model stops where the draws run out, and the loop's end is not modelled.
- TermiQuest.Quest.Step: the potions in the inventory are never used by the loop. `Step`, `Advance` and `Resolve` do not restate that the inventory is kept; `CheckTile`, `CheckBattle`, `Encounter` and `Aftermath` do.
- NeonRacer.SpeedAt: `speed` is passed to `stdscr.timeout`, but the loop reads keys with `game_win.getch()` on another window, so `speed` does not pace the frames. The model keeps it as a counter, and the fixed `time.sleep(0.05)` is not modelled.
- Dungeon.Game.Healing: `event_healing` is defined but no room uses it. It is modelled and never called.
- Dungeon.Game.Trap: a trap can leave hp at 0 or below without ending the game, as in the source. The next battle then ends at once in defeat.
- `max_hp` and `attack_power` in Dungeon are constants (100 and 15): the source never reassigns them.
- `show_status`, `help`, `display_intro`, `dramatic_pause` and `slow_print` only print, and are left out.
- NeuroHack.VoiceMessage: returns the mood and the index of the line, not its text.
- NeuroHack.Protocol.RunMission: the script for one mission is a run of failed-and-retried passes followed by one final pass.
- NeonRacer: the minimum-terminal-size check and the HUD are presentation, and are left out. The `hp` field is kept but never changes, as in the source.
