# Dragon, Wizard, Knight — a verified model

This project models the console game "Dragon, Wizard, Knight" (`dragon_wizard_knight.py`).
The game is a rock-paper-scissors variant: a human plays a number of standard rounds
against the robot Sally. Dragon beats knight, knight beats wizard and wizard beats dragon.
If the human wins the standard phase, a bonus phase follows. It adds the druid move with
±2 score swings and a second robot, Bob.

The model covers:

- the rule table and move codes (`rules.dfy`, module `Rules`);
- what the move prompt and the round-count prompt accept (`move_input.dfy`, module `MoveInput`);
- the standard and bonus round resolvers, written as pure functions over the string values the
  game passes around (`resolve.dfy`, module `Resolve`);
- the final-winner rules and the gate into the bonus phase (`standings.dfy`, module `Standings`);
- the mutable game state (`game.dfy`, module `Game`). This is a `Player` class whose points change
  in place and a `DragonWizardKnight` class with the tie counter, the recorded winner and the round
  counters. Its methods are the resolvers that update those fields, the round loops of both phases,
  the bonus-phase reset and a whole game.

Each resolver branch is a `RoundCase`. `Points` maps a case to its score changes, and the
stateful methods are proved to apply exactly those changes and nothing else. Each loop is proved to
leave every counter at its total over the rounds (`StandardTotals`, `BonusTotals`). The lemmas
prove the game's properties about those totals and cases.

The human's move is a Python string. A string that is not a rule-table key makes the standard
resolver's lookup fail. The model keeps that string and records the failure as
`Resolution.KeyError`.

## Model

| member | source | states |
|---|---|---|
| `Rules.RuleKeys` | dragon_wizard_knight.py:117-123 | the rule table's keys are exactly the codes of dragon, knight and wizard; the druid neither beats nor is beaten by anything |
| `Rules.RulesAreCyclic` | dragon_wizard_knight.py:117-121 | on the standard moves the table is a cycle: no move beats itself, each beats exactly one standard move and is beaten by exactly one |
| `Rules.Trichotomy` | dragon_wizard_knight.py:117-121 | for two standard moves exactly one holds: they are equal, the first beats the second, or the second beats the first |
| `Rules.CodeInjective` | dragon_wizard_knight.py:122-123 | the four move codes are distinct, so a code names one move |
| `MoveInput.Join` | dragon_wizard_knight.py:62 | joining the allowed moves gives one code letter per move, in order |
| `MoveInput.Contains` | dragon_wizard_knight.py:67 | the string test `move in valid_inputs`: a prefix of the string is always found, and a found input is never longer than the string |
| `MoveInput.ContainsSpec` | dragon_wizard_knight.py:67 | the string test `s in t` holds exactly when some slice of `t` equals `s` (the empty string is in every string) |
| `MoveInput.ChooseMoveAsWritten` | dragon_wizard_knight.py:61-70 | one prompt attempt accepts an input exactly when it occurs somewhere in the codes followed by their upper-case forms, and returns it lower-cased; otherwise the game prompts again |
| `MoveInput.AsWrittenAcceptsCodes` | dragon_wizard_knight.py:62-68 | every allowed code is accepted in lower and upper case and comes back as the lower-case code |
| `MoveInput.AsWrittenAcceptsNonMoves` | dragon_wizard_knight.py:62-68 | the written test also accepts `""`, `"dk"` and `"wD"` (returned as `"wd"`), which the intended test refuses |
| `MoveInput.LowerCharToCode` | dragon_wizard_knight.py:68 | a character lower-cases to a move code exactly when it is that code or its upper-case form |
| `MoveInput.FindMove` | dragon_wizard_knight.py:122-123 | the code-to-move lookup behind the corrected move test of lines 62-68 (the source has no search of its own): it returns a move from the allowed list with the given code, or reports that no allowed move has it |
| `MoveInput.AcceptMove` | dragon_wizard_knight.py:62-68 | the intended move test: accepted exactly when the input is one letter equal to an allowed code in either case; the result is that allowed move |
| `MoveInput.OneLetterOfValidInputs` | dragon_wizard_knight.py:62 | a one-letter run of the valid-input string is an allowed code or its upper-case form |
| `MoveInput.AsWrittenAcceptsNonMovesInBonus` | dragon_wizard_knight.py:62-68 | at the bonus prompt (valid inputs `dkwrDKWR`) the written test accepts `""`, `"kw"` and `"rD"` (returned as `"rd"`) |
| `MoveInput.AcceptMoveAgreesOnOneLetter` | dragon_wizard_knight.py:62-68 | on one-letter inputs the written and the intended test accept the same inputs and yield the same move |
| `MoveInput.AcceptRounds` | dragon_wizard_knight.py:162-169 | a round count is accepted exactly when the input parses to an integer greater than zero, and that integer is returned |
| `Resolve.StandardCase` | dragon_wizard_knight.py:186-205 | the standard resolver ends in a tie, a human win or a robot win; the lookup fails only for a human move that is not a table key and differs from the robot's move |
| `Resolve.BonusCase` | dragon_wizard_knight.py:225-262 | the bonus resolver ends in a druid branch exactly when at least one side plays druid |
| `Resolve.StandardRoundScoresOnce` | dragon_wizard_knight.py:194-203 | for standard moves the round never fails and raises exactly one counter by one: ties iff the moves are equal, the human iff the human's move beats the robot's, the robot iff the robot's move beats the human's |
| `Resolve.StandardSwap` | dragon_wizard_knight.py:194-203 | swapping the two standard moves swaps the winner, and a tie stays a tie |
| `Resolve.BonusDruidSwings` | dragon_wizard_knight.py:234-247 | a lone human druid gives +2/−2, a lone robot druid −2/+2, two druids −2 to both; the tie counter is unchanged in all three |
| `Resolve.BonusWithoutDruidIsStandard` | dragon_wizard_knight.py:249-260 | without a druid the bonus resolver takes the standard resolver's branch; where the standard lookup would fail, the bonus guard gives the round to the robot |
| `Resolve.BonusWithoutDruidScoresOnce` | dragon_wizard_knight.py:249-260 | for any two strings other than `"r"` a bonus battle raises exactly one counter by one, the tie counter exactly when the strings are equal |
| `Resolve.NonMoveLosesBonusBattle` | dragon_wizard_knight.py:233-260 | a human bonus move that is neither a rule-table key nor `"r"` loses: the robot-druid branch when the robot plays druid, the robot-win branch of the guarded lookup otherwise |
| `Resolve.BonusAgreesWithStandard` | dragon_wizard_knight.py:249-260 | for standard moves the bonus resolver changes points and ties exactly as the standard resolver does |
| `Resolve.BonusSwap` | dragon_wizard_knight.py:233-260 | over all sixteen move pairs, swapping the moves mirrors the bonus branch (human/robot win, human/robot druid) |
| `Resolve.MirrorSwapsPoints` | dragon_wizard_knight.py:233-260 | a mirrored branch gives the same changes with the two players' parts exchanged |
| `Standings.StandardFinal` | dragon_wizard_knight.py:304-315 | the standard verdict is the human iff the human has more points, Sally iff Sally has more, no one iff they are level |
| `Standings.BonusFinal` | dragon_wizard_knight.py:318-334 | a single player is named iff strictly ahead of both others; Bob and Sally jointly iff they are level and ahead of the human; no one iff the human holds the top score and shares it |
| `Standings.BonusUnlockedAsWritten` | dragon_wizard_knight.py:384-387 | the gate as written (the name recorded for the standard verdict equals the human's name) always opens on a human win, and otherwise only for a human called "Sally" or "no one" |
| `Standings.AsWrittenGateOpens` | dragon_wizard_knight.py:384-387 | the written gate (recorded winner's name equals the human's name) opens iff the human won, or Sally won against a human called "Sally", or a human called "no one" tied |
| `Standings.LosingSallyUnlocksBonus` | dragon_wizard_knight.py:384-387 | a human called "Sally" who loses 0 to 1 still enters the bonus phase |
| `Standings.BonusUnlocked` | dragon_wizard_knight.py:384-387 | the intended gate opens exactly when the human has strictly more points than Sally |
| `Standings.GatesAgreeForOtherNames` | dragon_wizard_knight.py:384-387 | for any other name the written and the intended gate agree |
| `Game.StandardTotalsCountRounds` | dragon_wizard_knight.py:378-380 | over any standard rounds all counters are non-negative and human + Sally + ties equals the number of rounds |
| `Game.BonusTotalsWithoutDruid` | dragon_wizard_knight.py:354-356 | in a bonus phase where no one plays `"r"` (whatever other strings the human enters) all counters are non-negative and human + Sally + Bob + ties equals twice the number of rounds |
| `Game.AcceptedEmptyMoveFailsLookup` | dragon_wizard_knight.py:198 | the empty input passes the standard move prompt and then makes the rule lookup fail against every robot move |
| `Game.AcceptedNonMovesLoseBonusBattle` | dragon_wizard_knight.py:233-260 | `""`, `"kw"` and `"rD"` pass the written bonus prompt and each then gives the opponent +1, or the druid swing −2/+2 when the opponent plays druid |
| `Game.OneWonRoundUnlocksBonus` | dragon_wizard_knight.py:378-387 | the totals of one round won by the rule table (e.g. dragon over knight) are 1 point to the human; on those totals the human wins the standard phase and both the intended gate and the written gate open, whatever the human's name |
| `Game.EqualMovesTie` | dragon_wizard_knight.py:194-196 | equal moves only raise the tie counter |
| `Game.TiedRoundsCountTies` | dragon_wizard_knight.py:378-380 | rounds that are all ties give one tie per round and no points |
| `Game.TiedRoundsLockBonus` | dragon_wizard_knight.py:378-387 | after rounds that are all ties the verdict is no one and the intended gate stays shut; the written gate opens exactly when the human is called "no one" |
| `Game.DruidAndKnightRound` | dragon_wizard_knight.py:264-288 | druid against Sally's dragon plus knight against Bob's wizard: human +3, Sally −2, Bob 0, no tie |
| `Game.Player.constructor` | dragon_wizard_knight.py:21-23 | a new player has the given name and 0 points |
| `Game.Player.AddPoints` | dragon_wizard_knight.py:25-27 | adds the given amount to the player's points |
| `Game.Player.ResetPoints` | dragon_wizard_knight.py:37-41 | sets the player's points to 0 |
| `Game.DragonWizardKnight.constructor` | dragon_wizard_knight.py:101-110 | a new game has no players, no ties, no recorded winner and both round counters at 0 |
| `Game.DragonWizardKnight.GetRoundWinner` | dragon_wizard_knight.py:186-205 | returns the standard resolution and changes the human's points, the robot's points and the tie counter by exactly its effect; nothing else changes, and nothing changes when the lookup fails |
| `Game.DragonWizardKnight.PlayStandardRound` | dragon_wizard_knight.py:207-223 | the round counter advances by one and the human, Sally and tie counters change by the round's effect |
| `Game.DragonWizardKnight.PlayStandardRounds` | dragon_wizard_knight.py:378-380 | after the loop the round counter has advanced by the round total and each counter has grown by its total over the rounds |
| `Game.DragonWizardKnight.GetBonusWinner` | dragon_wizard_knight.py:225-262 | returns the bonus branch and changes the two players' points and the tie counter by exactly its points; nothing else changes |
| `Game.DragonWizardKnight.PlayBonusRound` | dragon_wizard_knight.py:264-288 | the round counter advances by one; the battle against Sally, then the one against Bob, change the four counters by the round's score; the human's two moves are any strings, as the written bonus prompt returns them |
| `Game.DragonWizardKnight.PlayBonusRounds` | dragon_wizard_knight.py:354-356 | after the loop the round counter has advanced by the round total and each of the four counters has grown by its bonus total |
| `Game.DragonWizardKnight.GetFinalWinner` | dragon_wizard_knight.py:290-334 | returns the standard or the bonus verdict on the current points; only the standard verdict is recorded, as the winner's name |
| `Game.DragonWizardKnight.StartBonusPhase` | dragon_wizard_knight.py:343-351 | the human's and Sally's points, the tie counter and the current round are 0; Bob is a new player with 0 points; the round total is the new count |
| `Game.DragonWizardKnight.RunBonusGame` | dragon_wizard_knight.py:336-358 | after the bonus game every counter equals its total over the bonus rounds alone, current round equals round total, and the verdict is the bonus verdict on those totals |
| `Game.DragonWizardKnight.StartGame` | dragon_wizard_knight.py:366-376 | the human joins under the given name, Sally joins, both with 0 points, and the round counters are set to the count and 0 |
| `Game.DragonWizardKnight.PlayStandardGame` | dragon_wizard_knight.py:374-382 | after the standard phase the points are the round totals, current round equals round total, and the verdict is recorded as the winner's name |
| `Game.DragonWizardKnight.Run` | dragon_wizard_knight.py:360-389 | a whole game: the standard verdict on the standard totals is recorded by name; the bonus game runs exactly when the recorded name equals the human's name, which for every name but "Sally" and "no one" means exactly when the human won; its verdict is the bonus verdict on the bonus totals; without the bonus game Bob is left untouched |

## Findings

| source | as written | input that shows it | evidently intended | confidence | as-written member | corrected member |
|---|---|---|---|---|---|---|
| dragon_wizard_knight.py:67 | `move in valid_inputs` is a substring test, so the empty string and runs such as `dk` or `wD` are accepted as moves | at the standard move prompt, press Enter on an empty line: `""` is accepted, and `get_round_winner` then fails with a KeyError at line 198 against any robot move | accept exactly one letter that is an allowed code, in either case | high; not executed | `Game.AcceptedEmptyMoveFailsLookup` | `MoveInput.AcceptMove` |
| dragon_wizard_knight.py:386 | the bonus gate compares the recorded winner's name with the human's name | a human who enters the name `Sally` and loses the standard phase 0 to 1 (`winner_final == "Sally" == player.name`) is let into the bonus phase | enter the bonus phase only when the human won the standard phase | high; not executed | `Standings.LosingSallyUnlocksBonus` | `Standings.BonusUnlocked` |

The source states the intent in its own words. The `choose_move` docstring speaks of "looping until
a valid move is entered" (dragon_wizard_knight.py:57-59). The re-prompt message asks the player to
"please enter one of D, K, W" (line 70). The `run_bonus_game` docstring says it is "called only if
the human player wins the standard game" (line 339). The comment at line 385 says the check is there
"to see if the player won". The code at lines 67 and 386 does neither exactly.

How the game model uses the two halves:

- Standard moves reach `Game.DragonWizardKnight.Run` as `Move` values, the form `MoveInput.AcceptMove`
  returns. A non-move string there ends the program with a KeyError, and that crash is not modelled.
- The human's bonus moves are strings, as the written prompt returns them. The bonus resolver scores
  every string, so nothing crashes there (`Game.AcceptedNonMovesLoseBonusBattle`).
- The bonus gate in `Run` is the written one: the recorded winner's name is compared with the human's
  name. `Run`'s contract also states the corrected gate, `Standings.BonusUnlocked`, for every name but
  "Sally" and "no one".

## Left out

- Console output is left out, because it does not affect the game's logic. That covers the prompts,
  every `print`, the rule texts, the divider and the scoreboard. The model returns winners as
  `RoundCase` and `Standing` values instead of formatted messages. The only name string kept is the
  one recorded in `winnerFinal`, since the bonus gate reads it.
- The robots' `random.choice` is a library call with a random result. Robot moves are parameters of
  the round methods.
- Python's `int()` parsing and its `ValueError` are library behaviour. `MoveInput.AcceptRounds`
  takes the parse result as an `Option<int>`, with `None` for a failed parse.
- The re-prompt loops of the move prompt and the round-count prompt are interactive and never end on
  their own. The model covers one attempt; `None` stands for a re-prompt. The game methods take the
  values these loops finally return.
- The human's name prompt is modelled as the `name` parameter of `Run`, which accepts any string.
- The `__main__` block and the placeholder `Player.choose_move` (which only raises) are left out.
  `HumanPlayer` and `RobotPlayer` differ only in `choose_move`, so both are the one class `Game.Player`.
- Case conversion is ASCII only, which is exact for every input the move test accepts: those inputs
  are runs of ASCII letters. Python's full Unicode case mapping is not modelled.
- Exception propagation is left out. `Resolve.StandardCase` models the KeyError of line 198 as
  `Resolution.KeyError`, but the crash of the whole program that follows is not modelled. The
  standard round methods therefore require standard moves, as the corrected move test guarantees.
  The bonus round methods take any strings, because the bonus resolver handles them all.
