# activity-book games in Dafny

A Dafny model of the game logic of activity-book, a set of small React games
for young children. Each game is a component whose `useState` values are
read here as the fields of a class. Its event handlers, effects and timer
callbacks become methods that update those fields. The pure helpers the
handlers call become functions, and what the games promise becomes lemmas and
contracts. The model covers seven games:

- **Maze** (`maze.dfy`): the player draws a path from the digger to the
  treasure. A pointer position maps to a grid cell by floor division by the
  cell size, and a position is accepted only when its cell is inside the grid
  and open. Each new position is tested on its own, so a stroke can jump
  across walls (`WallJumpWins`). A win scores 10, and two seconds later the
  level cycles 1, 2, 3, 1.
- **Dot to dot** (`dot_to_dot.dfy`): fourteen numbered pictures. Only the
  next number is accepted; the largest one completes the picture. The
  connected dots become an SVG path of `M`/`L` commands. "Start Over" makes
  the *largest* number the next one, and nothing guards against clicking
  again after completion (`ResetThenRepeatClick`).
- **Codeword** (`codeword.dfy`): letter buttons fill the first empty box, a
  box click empties that box, and a filled row that spells the word scores
  10 (easy) or 20 (medium).
- **Spot the difference** (`spot_difference.dfy`): three scenes of five
  rectangles. A click on the right picture finds the first not-yet-found
  rectangle that contains it, and five finds complete the scene.
- **Colouring** (`coloring.dfy`): a map from area id to colour, the colour
  each area is drawn with, and the rounded completion percentage.
- **Math** and **Letter** (`math_game.dfy`, `letter_game.dfy`, sharing
  `quiz.dfy`): wrong options by rejection sampling, options shuffled, and one
  point for a right answer.

Randomness is supplied by the caller: addend and table draws are
parameters, the candidate wrong options are a sequence of draws, and the
random-comparator shuffle is a sequence of adjacent swaps. Pointer positions
are integers (pixels for the maze, percent of the picture for spot the
difference). Each `setTimeout` callback is a separate method that the
environment calls later, and each effect is a method called after the state
change that triggers it.

## Model

| member | source | states |
|---|---|---|
| Maze.PatternsWellFormed | src/components/games/MazeGame.tsx:30-70 | three levels; each grid is a rectangle of 0/1 cells, of side 5, 6 and 7, whose start and treasure cells are in bounds and open |
| Maze.GenerateMaze | src/components/games/MazeGame.tsx:72-80 | level n uses pattern min(n-1, 2); the cell size is the largest size up to 60 at which the grid fits in 400 pixels: it fits, and it is 60 or one pixel more would overflow 400 |
| Maze.CellSizeIsLargestFit | src/components/games/MazeGame.tsx:72-80 | no cell size up to 60 that fits the grid's rows into 400 pixels is larger than the generated one |
| Maze.IsValidPosition | src/components/games/MazeGame.tsx:173-185 | accepted only with a maze loaded and a non-negative point whose floor-divided cell is inside the grid and open |
| Maze.ValidIffOpenOnCanvas | src/components/games/MazeGame.tsx:173-185 | a position is valid exactly when it lies on the canvas (width times cell size by rows times cell size) and its cell is open |
| Maze.CheckWin | src/components/games/MazeGame.tsx:187-195 | a win exactly when a maze is loaded and the pointer's column is `end.x` and its row is `end.y` |
| Maze.WinningPositionIsValid | src/components/games/MazeGame.tsx:187-195 | any winning position is also a valid one, so the move that wins is always appended |
| Maze.StartAndTreasureReachable | src/components/games/MazeGame.tsx:133-143 | on every level the centre of the digger's cell is a valid press, and the centre of the treasure's cell is valid and winning |
| Maze.NextLevel | src/components/games/MazeGame.tsx:217-223 | the level after a win is level + 1 below 3 and 1 after 3, so it stays in 1..3 |
| Maze.MazeGame.constructor | src/components/games/MazeGame.tsx:22-27 | no maze yet, not drawing, empty path, not complete, score 0, level 1 |
| Maze.MazeGame.LoadLevel | src/components/games/MazeGame.tsx:82-86 | the level effect loads that level's maze and empties the path and completion; score, level and drawing are kept |
| Maze.MazeGame.MouseDown | src/components/games/MazeGame.tsx:197-203 | a valid press starts drawing with the path exactly [p]; an invalid one changes nothing; every path point stays valid |
| Maze.MazeGame.MouseMove | src/components/games/MazeGame.tsx:205-226 | ignored unless drawing; an invalid point is dropped and drawing continues; a valid one is appended; a winning one also completes, stops drawing, adds exactly 10 and starts a timer that captured the current level; no other move starts one |
| Maze.MazeGame.MouseUp | src/components/games/MazeGame.tsx:228-230 | drawing stops; path, completion, score and level are kept |
| Maze.MazeGame.ResetMaze | src/components/games/MazeGame.tsx:232-236 | empty path, not complete, not drawing; score and level kept |
| Maze.MazeGame.AdvanceLevel | src/components/games/MazeGame.tsx:82-223 | the timer sets the level after the one it captured; only when that changes the level does the level effect load its maze, empty the path and clear completion, and otherwise nothing else changes |
| Maze.DoubleWinAdvancesOnce | src/components/games/MazeGame.tsx:205-226 | two wins on level 1 before the first timer fires start two timers that both captured level 1; after both the game is on level 2 with 20 points |
| Maze.WallJumpWins | src/components/games/MazeGame.tsx:205-226 | on level 1 a press on the digger and one move onto the treasure win 10 points, although a point of the straight stroke between their centres lies in the wall cell (1, 1) and is not a valid position |
| DotToDot.HappyStarNumbered | src/components/games/DotToDotGame.tsx:31-47 | at least ten dots, numbered 1..n in table order with id equal to number |
| DotToDot.CuteHouseNumbered | src/components/games/DotToDotGame.tsx:48-64 | as above for this picture |
| DotToDot.FriendlyFishNumbered | src/components/games/DotToDotGame.tsx:65-83 | as above for this picture |
| DotToDot.RacingCarNumbered | src/components/games/DotToDotGame.tsx:84-105 | as above for this picture |
| DotToDot.SmilingSunNumbered | src/components/games/DotToDotGame.tsx:106-126 | as above for this picture |
| DotToDot.CuteCatNumbered | src/components/games/DotToDotGame.tsx:127-150 | as above for this picture |
| DotToDot.RocketShipNumbered | src/components/games/DotToDotGame.tsx:151-179 | as above for this picture |
| DotToDot.HappyButterflyNumbered | src/components/games/DotToDotGame.tsx:180-210 | as above for this picture |
| DotToDot.SweetHeartNumbered | src/components/games/DotToDotGame.tsx:211-230 | as above for this picture |
| DotToDot.JuicyAppleNumbered | src/components/games/DotToDotGame.tsx:231-252 | as above for this picture |
| DotToDot.FlyingAirplaneNumbered | src/components/games/DotToDotGame.tsx:253-278 | as above for this picture |
| DotToDot.ColorfulUmbrellaNumbered | src/components/games/DotToDotGame.tsx:279-300 | as above for this picture |
| DotToDot.RoyalCrownNumbered | src/components/games/DotToDotGame.tsx:301-322 | as above for this picture |
| DotToDot.SimpleFlowerNumbered | src/components/games/DotToDotGame.tsx:323-344 | as above for this picture |
| DotToDot.PicturesNumberedInOrder | src/components/games/DotToDotGame.tsx:30-345 | fourteen pictures, each numbered 1..n in order with at least ten dots |
| DotToDot.MaxNumber | src/components/games/DotToDotGame.tsx:350-352 | an upper bound of every dot's number that some dot attains |
| DotToDot.MaxOfNumberedInOrder | src/components/games/DotToDotGame.tsx:350-352 | for a picture numbered 1..n the largest number is n |
| DotToDot.PicturesPlayable | src/components/games/DotToDotGame.tsx:30-352 | the table is non-empty, no picture is empty, and the first picture ends at dot 10 |
| DotToDot.GetDotByNumber | src/components/games/DotToDotGame.tsx:376-378 | none exactly when no dot has the number; otherwise the first dot in table order that has it |
| DotToDot.GetDotInNumberedPicture | src/components/games/DotToDotGame.tsx:376-378 | in a picture numbered 1..n, number k finds the k-th dot |
| DotToDot.DotClass | src/components/games/DotToDotGame.tsx:416-424 | "dot connected" iff connected; "dot next current-target" iff not connected and next; "dot" iff neither |
| DotToDot.InsertById | src/components/games/DotToDotGame.tsx:428-438 | inserting one dot adds exactly that dot to the multiset |
| DotToDot.InsertKeepsOrder | src/components/games/DotToDotGame.tsx:428-438 | inserting into an id-ordered list keeps it id-ordered, one longer, with the smaller of the two leading ids first |
| DotToDot.SortById | src/components/games/DotToDotGame.tsx:428-438 | the render order is ascending by id and a permutation of the picture's dots, which are left as they are |
| DotToDot.StrokesShape | src/components/games/DotToDotGame.tsx:384-393 | with known dots, the loop emits one command per connected dot: M to the first, L to each later one |
| DotToDot.PathShape | src/components/games/DotToDotGame.tsx:380-404 | no path below two dots; otherwise one M, one L per further dot, and a closing L to the first dot exactly when complete with more than two dots |
| DotToDot.DotToDotGame.constructor | src/components/games/DotToDotGame.tsx:24-28 | first picture, nothing connected, dot 1 next, not complete, none completed |
| DotToDot.DotToDotGame.DotClick | src/components/games/DotToDotGame.tsx:361-374 | a number other than next changes nothing; the next one is appended, and at the largest number it completes and counts with next unchanged, otherwise next grows by one |
| DotToDot.DotToDotGame.ResetPicture | src/components/games/DotToDotGame.tsx:410-414 | nothing connected, not complete, next set to the largest number; picture and count kept |
| DotToDot.DotToDotGame.NextPicture | src/components/games/DotToDotGame.tsx:406-408 | the index moves to (index + 1) mod count; when it changes, the effect at lines 354-358 empties the list and makes 1 next |
| DotToDot.DotToDotGame.GetPathData | src/components/games/DotToDotGame.tsx:380-404 | exactly the command list PathCommands of the current picture's connected dots, every one of which names a dot, so PathShape describes it |
| DotToDot.PathData | src/components/games/DotToDotGame.tsx:380-404 | the loop over any dots and connected numbers builds exactly PathCommands, skipping numbers with no dot |
| DotToDot.ConnectedKnown | src/components/games/DotToDotGame.tsx:361-404 | in every reachable game state each connected number names a dot of the current picture |
| DotToDot.ConnectedIsRun | src/components/games/DotToDotGame.tsx:354-372 | before completion the connected list is the run origin, ..., next - 1, which from a fresh picture is 1..next-1 |
| DotToDot.NextDotHighlighted | src/components/games/DotToDotGame.tsx:416-424 | before completion the next dot is not connected and is drawn as the target |
| DotToDot.LastDotShownConnected | src/components/games/DotToDotGame.tsx:416-424 | once complete the last dot, still next, is drawn as connected |
| DotToDot.ResetThenRepeatClick | src/components/games/DotToDotGame.tsx:361-414 | for any playable table, after "Start Over" one click on the first picture's last dot completes it, and a second click appends that dot again and counts a second completion |
| Codeword.PuzzlesWellFormed | src/components/games/CodewordGame.tsx:23-43 | sixteen puzzles; easy words have three letters and medium words four, all upper-case A-Z |
| Codeword.AlphabetCoversUpper | src/components/games/CodewordGame.tsx:45 | every upper-case letter has a button |
| Codeword.PuzzleSolvableWithButtons | src/components/games/CodewordGame.tsx:23-79 | each puzzle's letters all have buttons, and typing them in order into blank boxes solves it |
| Codeword.Points | src/components/games/CodewordGame.tsx:64 | 10 exactly for easy, otherwise 20 |
| Codeword.FirstEmpty | src/components/games/CodewordGame.tsx:73 | -1 exactly when no box is empty; otherwise an empty box with no empty box before it |
| Codeword.FillFirstEmpty | src/components/games/CodewordGame.tsx:73-78 | same length; unchanged when no box is empty; otherwise the first empty box gets the letter and every other box is kept |
| Codeword.FillThenClearRestores | src/components/games/CodewordGame.tsx:70-87 | emptying the box that was just filled gives back the previous boxes |
| Codeword.Blank | src/components/games/CodewordGame.tsx:54 | n boxes, all empty |
| Codeword.JoinOfLetters | src/components/games/CodewordGame.tsx:61-62 | with one letter per box, the joined boxes equal the word exactly when there is one box per letter and box j holds letter j |
| Codeword.TypeIntoTail | src/components/games/CodewordGame.tsx:73-78 | typing letters into boxes whose tail is empty writes them in order after the filled prefix and leaves the rest empty |
| Codeword.TypingWordSolves | src/components/games/CodewordGame.tsx:59-79 | typing a word's letters into blank boxes fills box j with letter j and passes the completion test |
| Codeword.CodewordGame.constructor | src/components/games/CodewordGame.tsx:51-57 | the drawn puzzle with blank boxes, not complete, hint hidden |
| Codeword.CodewordGame.LetterClick | src/components/games/CodewordGame.tsx:70-79 | unchanged once complete; otherwise the boxes become FillFirstEmpty of the old boxes |
| Codeword.CodewordGame.BoxClick | src/components/games/CodewordGame.tsx:81-87 | unchanged once complete; otherwise box i is emptied and the others kept |
| Codeword.CodewordGame.ClearAll | src/components/games/CodewordGame.tsx:89-93 | all boxes empty, with completion kept and no guard on it |
| Codeword.CodewordGame.NextPuzzle | src/components/games/CodewordGame.tsx:95-101 | the drawn puzzle with blank boxes of its length, not complete, hint hidden; score kept |
| Codeword.CodewordGame.ToggleHint | src/components/games/CodewordGame.tsx:103-105 | the hint flag flips and nothing else changes, so two toggles are the identity |
| Codeword.CodewordGame.CompletionEffect | src/components/games/CodewordGame.tsx:59-68 | when all boxes are filled and spell the word: complete, score + Points(difficulty), solved + 1; otherwise nothing changes |
| SpotDifference.Scene1Facts | src/components/games/SpotDifferenceGame.tsx:38-44 | five differences with ids 1..5 and positive sizes; no difference contains another's top-left corner |
| SpotDifference.Scene2Facts | src/components/games/SpotDifferenceGame.tsx:51-57 | as above for scene 2 |
| SpotDifference.Scene3Facts | src/components/games/SpotDifferenceGame.tsx:64-70 | as above for scene 3 |
| SpotDifference.ScenesWellFormed | src/components/games/SpotDifferenceGame.tsx:32-72 | three scenes, each with exactly five differences numbered 1..5, so the threshold of five can be reached |
| SpotDifference.HitTest | src/components/games/SpotDifferenceGame.tsx:105-109 | none exactly when no difference both contains the point (closed rectangle) and is unfound; otherwise the first such difference in table order |
| SpotDifference.HitTestUnique | src/components/games/SpotDifferenceGame.tsx:105-109 | when only one difference contains the point and it is unfound, the hit test returns it |
| SpotDifference.CornerHit | src/components/games/SpotDifferenceGame.tsx:105-109 | clicking an unfound difference's top-left corner finds exactly that difference |
| SpotDifference.SpotDifferenceGame.constructor | src/components/games/SpotDifferenceGame.tsx:26-30 | scene 0, nothing found, score 0, no message, no wrong-click marker |
| SpotDifference.SpotDifferenceGame.SceneClick | src/components/games/SpotDifferenceGame.tsx:95-124 | nothing while complete or on the left picture; a hit appends its id, adds exactly 2 and shows correct; a miss keeps found and score, shows incorrect and records the point; found stays free of repeats |
| SpotDifference.SpotDifferenceGame.CompletionEffect | src/components/games/SpotDifferenceGame.tsx:76-79 | one firing of the completion effect: at five found, complete and score + 10; otherwise nothing changes (its re-firing is under "Left out") |
| SpotDifference.SpotDifferenceGame.SceneAdvance | src/components/games/SpotDifferenceGame.tsx:80-91 | the next scene, or scene 0 after the last, with nothing found and no message; score kept |
| SpotDifference.SpotDifferenceGame.DismissHit | src/components/games/SpotDifferenceGame.tsx:115 | the message is hidden and nothing else changes |
| SpotDifference.SpotDifferenceGame.DismissMiss | src/components/games/SpotDifferenceGame.tsx:119-122 | the message and the wrong-click marker are hidden |
| SpotDifference.FoundAtMostGoal | src/components/games/SpotDifferenceGame.tsx:105-112 | the found list, free of repeats and drawn from ids 1..5, never exceeds five |
| SpotDifference.ClickCorner | src/components/games/SpotDifferenceGame.tsx:95-115 | with the first k differences of scene 1 found, a click on the top-left corner of difference k + 1 finds it and scores 2 |
| SpotDifference.PlayFirstScene | src/components/games/SpotDifferenceGame.tsx:76-124 | clicking the five corners of scene 1 in turn finds all five, scores 5 * 2 + 10 = 20, completes and moves to scene 2, with the completion effect running after each click and before its 1.5-second timer, and firing once at five |
| Coloring.PaletteWellFormed | src/components/games/ColoringGame.tsx:21-31 | ten distinct, non-empty colours, none of them the colourable grey |
| Coloring.IsAreaColored | src/components/games/ColoringGame.tsx:49-51 | an area counts as coloured exactly when its id has an entry in the map |
| Coloring.AreaColor | src/components/games/ColoringGame.tsx:45-47 | the stored colour when present and non-empty, else the area's original colour |
| Coloring.ColorableAreas | src/components/games/ColoringGame.tsx:54 | exactly the areas whose original colour is #E8E8E8, each as often as it occurs in the picture |
| Coloring.ColoredCount | src/components/games/ColoringGame.tsx:55 | the number of positions holding a coloured area, so between 0 and the number of areas, 0 when none is coloured and all when all are |
| Coloring.CompletionPercentage | src/components/games/ColoringGame.tsx:53-57 | none (0/0) exactly when no area is colourable; otherwise in 0..100 and equal to 100 * colored / colourable rounded half up |
| Coloring.RoundedPercent | src/components/games/ColoringGame.tsx:56 | the integer rounding lies in 0..100, is the nearest integer, and gives 0 and 100 at the two ends |
| Coloring.PercentageEnds | src/components/games/ColoringGame.tsx:53-57 | with a colourable area: 0 when nothing is coloured, 100 when every colourable area is |
| Coloring.ClearedIsZero | src/components/games/ColoringGame.tsx:66-68 | after clearing, the percentage is 0 |
| Coloring.ClickShowsSelected | src/components/games/ColoringGame.tsx:38-51 | after a click on a colourable area it counts as coloured and is drawn in the selected colour; other areas keep their colour |
| Coloring.ColoringGame.constructor | src/components/games/ColoringGame.tsx:16-19 | red selected, first picture, empty map, nothing completed |
| Coloring.ColoringGame.ClickArea | src/components/games/ColoringGame.tsx:38-43 | a colourable area sets exactly its own entry to the selected colour; any other area changes nothing |
| Coloring.ColoringGame.SelectColor | src/components/games/ColoringGame.tsx:116-123 | the selected colour becomes palette colour i |
| Coloring.ColoringGame.ClearColors | src/components/games/ColoringGame.tsx:66-68 | the colour map becomes empty |
| Coloring.ColoringGame.NextPicture | src/components/games/ColoringGame.tsx:59-64 | one more completed picture exactly when the percentage is above 50; the index moves on mod the count; the effect at lines 34-36 empties the map when the index changed |
| Quiz.SampleDistinct | src/components/games/MathGame.tsx:28-34 | the accepted values are distinct, none equals the answer, and they are exactly the values drawn other than the answer; sampling stops at the wanted count or when the draws run out, and it accepts the wanted count or, when fewer exist, every distinct value other than the answer |
| Quiz.SwapAdjacent | src/components/games/MathGame.tsx:37 | one swap keeps length and multiset |
| Quiz.Shuffle | src/components/games/MathGame.tsx:37 | the shuffle is a permutation |
| Quiz.NoDupMultiplicity | src/components/games/MathGame.tsx:37 | no repeats exactly when every element occurs at most once in the multiset |
| Quiz.PermutationKeepsNoDup | src/components/games/MathGame.tsx:37 | a permutation of a repeat-free list is repeat-free |
| Quiz.ConsNoDup | src/components/games/MathGame.tsx:37 | the answer before distinct wrong values different from it has no repeats |
| Quiz.ShuffledOptions | src/components/games/MathGame.tsx:37 | the shuffled options have one more element than the wrong values, no repeats, include the answer, and hold only the answer and the wrong values |
| MathGame.GenerateProblem | src/components/games/MathGame.tsx:21-40 | addends in 0..5 and answer their sum; three distinct options in 0..10 including the answer, each the answer or a draw; none exactly when the draws hold fewer than two distinct values other than the answer |
| MathGame.Dinosaurs | src/components/games/MathGame.tsx:63-67 | exactly count dinosaurs |
| MathGame.MathGame.constructor | src/components/games/MathGame.tsx:16-19 | no problem yet, score 0, no message, none completed |
| MathGame.MathGame.Load | src/components/games/MathGame.tsx:42-44 | the mount effect installs a generated problem |
| MathGame.MathGame.Answer | src/components/games/MathGame.tsx:46-110 | a click is accepted exactly when a problem is loaded and no result is shown (the buttons are disabled otherwise), and an ignored click changes nothing; an accepted one scores + 1 exactly on the right answer, with the matching message |
| MathGame.MathGame.AdvanceProblem | src/components/games/MathGame.tsx:56-60 | the pending timer hides the message, counts one more completed problem and shows a new problem; score kept |
| MathGame.AnswerRound | src/components/games/MathGame.tsx:46-60 | one answer and its timer give one completed problem and the next problem, with a point exactly when the answer was right |
| MathGame.SecondAnswerIgnored | src/components/games/MathGame.tsx:46-110 | a second click while the first result is shown is not accepted; after the timer only the first answer has scored and one problem is completed |
| LetterGame.LetterAt | src/components/games/LetterGame.tsx:57 | character 65 + k is the capital letter k places after 'A' |
| LetterGame.LetterWordsWellFormed | src/components/games/LetterGame.tsx:21-48 | 26 entries; entry i's letter is 'A' + i, and each word starts with its letter |
| LetterGame.GenerateChallenge | src/components/games/LetterGame.tsx:50-72 | the target is the picked entry's letter and the word is its word; four distinct capital letters including the target, each the target or a drawn letter; none exactly when the drawn letters hold fewer than three distinct letters other than the target |
| LetterGame.LetterGame.constructor | src/components/games/LetterGame.tsx:16-19 | no challenge yet, score 0, no message, none completed |
| LetterGame.LetterGame.Load | src/components/games/LetterGame.tsx:74-76 | the mount effect installs a generated challenge |
| LetterGame.LetterGame.Answer | src/components/games/LetterGame.tsx:78-123 | a click is accepted exactly when a challenge is loaded and no result is shown (the buttons are disabled otherwise), and an ignored click changes nothing; an accepted one scores + 1 exactly on the target letter, with the matching message |
| LetterGame.LetterGame.AdvanceChallenge | src/components/games/LetterGame.tsx:88-92 | the pending timer hides the message, counts one more completed challenge and shows a new challenge; score kept |
| LetterGame.AnswerEachButton | src/components/games/LetterGame.tsx:78-87 | of the four buttons, exactly those equal to the target score 1, and one of them does |

## Left out

- Rendering is not modelled: canvas drawing, JSX and SVG markup, CSS classes other than the dot class string, images, emoji, clues and titles. `Maze.Centre` uses integer halving for the pixel at which the digger and treasure are drawn, where the canvas uses a fractional half.
- DOM geometry is not modelled: `getCanvasPosition` and the percent conversion of a click. Pointer positions are integer inputs.
- The SVG path is a list of `M`/`L` commands; turning numbers into the path string is not modelled.
- Timers are not modelled as delays. Each callback is a method the environment calls later. Callbacks close over the values of the render that scheduled them. The model passes such a value in explicitly where it can differ from the current one: the level captured by the maze's win timer. In the quiz games the answer buttons are disabled while a result is shown, so at most one timer is pending and the count it captured is the current count.
- SpotDifference.SpotDifferenceGame.CompletionEffect: models one firing of the completion effect. In the program the effect lists `score` among its dependencies and updates it, so while five differences are found it runs again after each of its own updates: each run adds 10 more, shows "complete" again at once and schedules another 3-second scene change. Clicks therefore stay ignored until the scene changes. The extra timers all move to the same next scene, and the later ones empty `foundDifferences` again, discarding differences already found there.
- SpotDifference.PlayFirstScene: its 20 points, and the clicks that `DismissHit` and `SceneClick` handle again as misses after the 1.5-second timer hides "complete", hold for the single-firing model only; in the program the message returns at once and the score keeps growing until the scene changes.
- `Math.random` is not modelled. Draws are parameters. `MathGame.GenerateProblem` and `LetterGame.GenerateChallenge` return none exactly when the supplied draws hold too few distinct wrong values, where the source keeps drawing; the source's loop terminates only with probability one.
- The random-comparator `sort` is modelled as a caller-chosen list of adjacent swaps, so only the permutation property is stated, not a distribution over orders.
- The colouring game's `pictures` table is not part of this model, and `currentPic` is never defined in ColoringGame.tsx. The current picture's areas are a parameter, and `pictureCount` is a constructor argument. The `colors` array at lines 21-31 is also never closed in that file; the palette is taken as its ten listed colours.
- Coloring.CompletionPercentage: returns none where the source computes 0/0 (NaN); NaN > 50 is false, so no picture is counted, and `NextPicture` does the same. It also rounds the exact ratio 100 * coloured / colourable, where the source rounds the double `(coloured / colourable) * 100`: with 40 or more colourable areas the double can fall just below a half (23/40 gives 57.49999999999999), so the source shows 57 where the model gives 58 (likewise 29/200, 57/200, 113/200). Floating point is not modelled.
- `Codeword.CodewordGame.constructor`, `Codeword.CodewordGame.NextPuzzle` and the spot-the-difference and colouring constructors start from the state after the mount effect. The earlier loading render, where the puzzle or problem is still null, is represented only in the quiz games and the maze.
- Codeword.CodewordGame.BoxClick: requires the index to be one of the rendered boxes. The source only calls it from those boxes; an index beyond the array would extend it in JavaScript.
- Tests whose expectations differ from the code are not followed; the model follows the code. They include: dot-to-dot connection in reverse order from the highest number; two spot-the-difference scenes titled "Happy House"; ten maze levels.
- The maze has no segment sampling and no collision outcome, because the code tests only each new point's own cell.
- View routing, the main menu, the back buttons, and the file-existence scripts are not modelled.
