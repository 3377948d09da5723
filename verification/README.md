# Treasure Hunter: a verified model of the turn logic

Treasure Hunter is a console adventure. A hunter travels from town to town.
Crossing the terrain around a town needs an item, which may break on the way.
In each town the hunter may:

- pick a brawl for gold;
- hunt for the town's treasure;
- dig for gold once with a shovel;
- visit the shop.

A session starts with a mode question (hard, normal, easy, test, samurai). The mode sets the starting purse and kit, the shop's markdown and how often towns are tough. The game is won with three treasures.

This project models the town (`src/Town.java`) and the session logic of `src/TreasureHunter.java` as imperative Dafny. It is laid out as follows:

- `chance.dfy` (module `Chance`): every `Math.random()` call is replaced by an injected draw, a real in [0, 1). `Roll` turns a draw into a die face exactly as `(int)(Math.random() * n) + 1` does.
- `text.dfy` (module `Text`): `String.contains` as `Contains`, with its characterisation by an occurrence index, and `toLowerCase` as `Lower`.
- `collaborators.dfy` (module `Collaborators`): `Hunter`, `Terrain` and `Shop` are not part of this model. Each is a small class whose contract is the behaviour the town relies on. `canCrossTerrain` is an arbitrary function `CrossRule` of the hunter and the needed item.
- `town.dfy` (module `TownLogic`): the terrain and treasure tables. Each town operation is first a function on a `Visit` value: `Arrive`, `Leave`, `Trouble`, `Hunt`, `Dig` and `Shopping`. The lemmas state what the game promises about these functions. Class `Town` has the fields of the Java class. Each of its methods is proved to leave `Snapshot()` (hunter, searched flag, news, dig log) equal to the matching function applied to the old snapshot.
- `session.dfy` (module `Session`): the modes, the starting hunter, the per-mode town configuration and the game-over verdict, as functions with lemmas. Class `TreasureHunter` holds the constructor, `welcomePlayer`, `enterTown`, `processChoice` and one pass of `showMenu`.

The town's latest news is a `News` value that records which message was produced (a welcome, a crossing, being stuck, leaving the shop, a brawl). `Render` gives the text the Java code builds, without the colour codes. The lemmas state the message content the game promises: the welcome starts with "Welcome to town, " followed by the hunter's name, and a failed departure names the missing item.

Two points where the code does something easy to misread, and which the model follows:

- In `lookForTrouble` the no-trouble branch is taken when the first draw is greater than the threshold (src/Town.java:106).
- `treasureHunt` never marks the terrain as searched, so a second hunt claims the treasure again (src/Town.java:131-134). `HuntRepeats` states this.

## Model

| member | source | states |
|---|---|---|
| Chance.ProductBelow | src/Town.java:173 | a draw scaled by n stays in [0, n), so the cast is the floor of a product below n |
| Chance.Roll | src/Town.java:173 | `(int)(r*n)+1` lands on a face from 1 to n |
| Chance.RollReachesEveryFace | src/Town.java:173 | every face 1..n is reached by some draw in [0,1) |
| Chance.RollTwo | src/Town.java:151-152 | `(int)(r*2)` is 0 exactly when the draw is below one half |
| Text.ContainsAt | src/Town.java:148 | a needle occurring at some index is contained |
| Text.ContainsIffOccurs | src/Town.java:148 | `contains` holds iff the needle occurs at some index of the string |
| Text.ContainsInfix | src/Town.java:148 | a string is contained in any string built around it |
| Text.ContainsExtended | src/Town.java:148 | appending to a string keeps what it contained |
| Text.LowerIsLetter | src/TreasureHunter.java:63-66 | a line lower-cases to one lower-case letter iff it is that letter in either case |
| Collaborators.Hunter.constructor | src/TreasureHunter.java:85-97 | a new hunter has the given name and gold, an empty kit, no treasure, and the game is not over |
| Collaborators.Settle | src/TreasureHunter.java:165-171 | after a change of gold or treasures, the hunter's end-of-game rule decides `gameOver`, the flag showMenu reads |
| Collaborators.Hunter.ChangeGold | src/Town.java:118-122 | gold rises by the argument, then the end-of-game rule decides `gameOver`; nothing else changes |
| Collaborators.Hunter.RemoveItemFromKit | src/Town.java:72 | exactly that item leaves the kit |
| Collaborators.Hunter.AddItemTest | src/TreasureHunter.java:86-91 | the item joins the kit |
| Collaborators.Hunter.AddTreasure | src/Town.java:133 | the treasure is appended to the collection (no deduplication is an assumption: Hunter's code is not part of this model), then the end-of-game rule decides `gameOver` |
| Collaborators.Terrain.constructor | src/Town.java:175-185 | a terrain keeps its name, item and treasure and starts unsearched |
| Collaborators.Terrain.SetSearched | src/Town.java:51 | the terrain is marked searched |
| Collaborators.Shop.constructor | src/TreasureHunter.java:129 | the shop keeps its markdown |
| Collaborators.Shop.Enter | src/Town.java:89 | the shop changes only the hunter's gold, kit and `gameOver` |
| Collaborators.Hunter.HasItemInKit | src/Town.java:112 | `hasItemInKit`: the item is in the kit (also at src/Town.java:147) |
| Collaborators.Hunter.HasTreasure | src/Town.java:49 | `hasTreasure`: the treasure is among those claimed |
| Collaborators.Hunter.TreasureCount | src/TreasureHunter.java:167 | `getTreasureCount`: the number of claims, repeats included (assumed) |
| Text.Contains | src/Town.java:148 | `String.contains`: the needle is a prefix of the string or of one of its suffixes |
| Text.Lower | src/TreasureHunter.java:63-66 | `toLowerCase`, letter by letter, for the ASCII letters |
| TownLogic.TerrainFor | src/Town.java:172-187 | die faces 1..6 give Mountains/Rope, Ocean/Boat, Plains/Horse, Desert/Water, Jungle/Machete, Marsh/Boots; any other face gives Marsh/Boots |
| TownLogic.TreasureFor | src/Town.java:194-207 | die faces 1..4 give crown, dust, gem, trophy; any other face gives trophy |
| TownLogic.NewSiteRange | src/Town.java:172-207 | every new terrain is a table pair with a table treasure, and every table entry is reached by some draw |
| TownLogic.NewTerrain | src/Town.java:172-207 | getNewTerrain returns a fresh unsearched terrain equal to the table lookup of its two draws |
| TownLogic.Town.constructor | src/Town.java:22-35 | a new town has a fresh unsearched terrain from the tables, no hunter, an empty dig log and empty news, and is tough iff the draw is below the toughness |
| TownLogic.NewSite | src/Town.java:172-207 | the terrain and treasure the two draws pick from the tables |
| TownLogic.Render | src/Town.java:48-122 | the text of each message the town writes into printMessage, without colour codes |
| TownLogic.Flavour | src/Town.java:54-58 | the second line of the welcome, rough or sleepy by the town's toughness |
| TownLogic.Decimal | src/Town.java:117-121 | the decimal digits of the gold amount in the brawl message |
| TownLogic.Town.LatestNews | src/Town.java:37-39 | `getLatestNews`: the text of the latest news |
| TownLogic.Arrive | src/Town.java:46-59 | `hunterArrives` on a visit: the hunter, searched when the treasure is already owned, and the welcome |
| TownLogic.WelcomeText | src/Town.java:48 | the welcome begins "Welcome to town, <name>." and so contains the name |
| TownLogic.ArriveRule | src/Town.java:46-59 | arrival keeps gold and kit, marks the terrain searched iff the hunter already owns its treasure, and greets the hunter by name |
| TownLogic.Town.HunterArrives | src/Town.java:46-59 | the town binds that hunter, and its state becomes `Arrive` of the old state |
| TownLogic.ItemBreaks | src/Town.java:209-212 | `checkItemBreak`: the item breaks exactly on a draw below one half |
| TownLogic.Leave | src/Town.java:66-80 | `leaveTown` on a visit: the crossing with a possible broken item, or staying with the news of the missing item |
| TownLogic.LeaveGate | src/Town.java:66-80 | the hunter leaves iff the terrain can be crossed; a hunter who stays keeps gold, kit and treasures, and the news names the needed item |
| TownLogic.LeaveBreakage | src/Town.java:68-77 | crossing removes at most the needed item, only when the break draw is below one half outside easy mode, so easy mode never shrinks the kit |
| TownLogic.LeaveNews | src/Town.java:70-73 | after crossing, the news names the item used and the terrain crossed |
| TownLogic.Town.LeaveTown | src/Town.java:66-80 | returns whether the hunter left, and the town becomes `Leave` of the old state, given canCrossTerrain's verdict |
| TownLogic.NoTroubleChance | src/Town.java:99-104 | the threshold: 0.66 in a tough town, 0.33 otherwise |
| TownLogic.BrawlFor | src/Town.java:98-111 | a brawl that happens is for a stake of 1 to 10 gold |
| TownLogic.GoldChange | src/Town.java:118-122 | a won brawl adds the stake, a lost one subtracts it, no brawl changes nothing |
| TownLogic.Trouble | src/Town.java:98-124 | `lookForTrouble` on a visit: the brawl's gold through changeGold and its news |
| TownLogic.TroubleGold | src/Town.java:98-124 | the hunter is unchanged when the first draw is above the threshold (0.66 tough, 0.33 otherwise), which gives the "no trouble" news; otherwise gold changes by 1 to 10 either way, rises iff the second draw beats the threshold or samurai mode is on, and the end-of-game rule then decides `gameOver` |
| TownLogic.SwordOnlyChangesWords | src/Town.java:112-116 | the kit never decides the gold of a brawl; a sword changes only the message |
| TownLogic.Town.LookForTrouble | src/Town.java:98-124 | the town becomes `Trouble` of the old state for the three draws |
| TownLogic.Hunt | src/Town.java:127-138 | `treasureHunt` on a visit: the treasure claimed through addTreasure unless it is dust or the terrain is searched |
| TownLogic.HuntRule | src/Town.java:127-138 | a hunt changes nothing for dust or a searched terrain, otherwise appends exactly the terrain's treasure and the end-of-game rule decides `gameOver`; it never touches the searched flag |
| TownLogic.HuntRepeats | src/Town.java:130-134 | two hunts on an unsearched terrain both call `addTreasure`; the two copies in the collection come from the assumed non-deduplicating `addTreasure` |
| TownLogic.ThreeHuntsCountThree | src/Town.java:130-134 | three hunts on one unsearched terrain leave three copies of its treasure, so the count that decides the verdict reaches three (under the appending `addTreasure`) |
| TownLogic.ArriveThenHunt | src/Town.java:49-51 | a hunter who arrives already owning the treasure gains nothing by hunting |
| TownLogic.Town.TreasureHunt | src/Town.java:127-138 | the town becomes `Hunt` of the old state |
| TownLogic.Dig | src/Town.java:146-165 | `diggingForGold` on a visit: the shovel and dig-log checks, the gold found through changeGold, and the log entry |
| TownLogic.DigRule | src/Town.java:146-165 | without a shovel, or on a terrain already in the dig log, nothing changes; otherwise the terrain name is appended to the log, and gold rises by 0 or by 1 to 20, by more than 0 iff the first draw is below one half; only a find calls changeGold, after which the end-of-game rule decides `gameOver` |
| TownLogic.DigTwice | src/Town.java:148-159 | a second dig in the same town changes nothing |
| TownLogic.Town.DiggingForGold | src/Town.java:146-165 | the town becomes `Dig` of the old state |
| TownLogic.Shopping | src/Town.java:88-91 | `enterShop` on a visit: the shop's outcome, then the "You left the shop" news |
| TownLogic.Town.EnterShop | src/Town.java:88-91 | the hunter leaves the shop with the shop's gold, kit and `gameOver`, and the news says so |
| Session.TreasureHunter.constructor | src/TreasureHunter.java:28-37 | no town, no hunter, all five mode flags off |
| Session.ApplyOption | src/TreasureHunter.java:67-81 | each option letter switches on its own flag |
| Session.OptionSetsOwnFlag | src/TreasureHunter.java:65-81 | from a fresh session an option sets exactly its own flag (in either case), and any other line sets none |
| Session.TreasureHunter.SetOption | src/TreasureHunter.java:67-81 | each option letter switches on its own flag and no flag is switched off |
| Session.StartingHunter | src/TreasureHunter.java:84-99 | the starting purse and kit for the modes in force |
| Session.StartingHunterFor | src/TreasureHunter.java:84-99 | test mode starts with 100 gold and the six-item kit, easy mode with 20 gold, every other mode with 10 gold, all without treasure |
| Session.CreateHunter | src/TreasureHunter.java:84-99 | the new hunter is the starting hunter for the modes in force |
| Session.TreasureHunter.WelcomePlayer | src/TreasureHunter.java:59-100 | the lower-cased option line sets the flags, and the session's new hunter has the lower-cased name and the starting purse and kit |
| Session.TownConfig | src/TreasureHunter.java:106-124 | the markdown and toughness, each flag in turn overriding the one before |
| Session.TownConfigFor | src/TreasureHunter.java:106-124 | hard gives (0.25, 0.75); easy or samurai gives (1, 0.1); normal, test and no option keep (0.5, 0.4) |
| Session.TreasureHunter.ChooseConfig | src/TreasureHunter.java:106-124 | the markdown and toughness are the configuration for the modes in force |
| Session.TreasureHunter.EnterTown | src/TreasureHunter.java:105-141 | the new town has the configured markdown and toughness, a terrain from the tables, and holds the session's same hunter, which arrives as `Arrive` says |
| Session.TreasureHunter.Processed | src/TreasureHunter.java:184-204 | the effect of one command: shop for b and s; the town's operation for l, h and d; for m, a new town with the configured markdown and toughness holding the same hunter only when leaving succeeds; nothing for x and unknown commands; the hunter object and the modes kept |
| Session.TreasureHunter.ProcessChoice | src/TreasureHunter.java:184-204 | through `Processed`: b and s go to the shop; l, h and d do the town's operation; m replaces the town only when leaving succeeds; x and unknown commands change nothing; the hunter object and the modes stay the same |
| Session.VerdictOf | src/TreasureHunter.java:165-171 | a finished game is won iff exactly three treasures were collected |
| Session.HuntCanWin | src/TreasureHunter.java:165-168 | a hunt that claims a third treasure, when the end-of-game rule then ends the game, gives the verdict Win |
| Session.BrawlCanLose | src/TreasureHunter.java:165-171 | a lost brawl, when the end-of-game rule then ends the game, gives the verdict Lose |
| Session.TreasureHunter.MenuTurn | src/TreasureHunter.java:165-176 | a finished game ends the loop with "x", a verdict and no state change; otherwise the lower-cased line is processed with exactly the effect `Processed` gives for it; the modes never change |

## Left out

- Console input and output are not modelled: the `Scanner` lines are parameters, and the `println` messages of `hunterArrives`, `treasureHunt`, `diggingForGold` and `processChoice` are not modelled. The `Colors` codes are dropped from the news texts.
- `Math.random()` is replaced by draws passed in. Nothing is said about how often each outcome happens.
- Floating point: the draws and the thresholds are exact reals, so rounding of `double` arithmetic is not modelled.
- `Hunter`, `Terrain` and `Shop` are not part of this model. They are given the contracts the town relies on. Kit entries compare by equality, and `addTreasure` appends without removing duplicates. The rule that sets `gameOver` is not part of this model either. It is a parameter `EndRule` of the hunter's state, applied after each `changeGold` and `addTreasure`; the shop's outcome carries its own `gameOver`. So any turn that changes gold or treasures can end the game, as `HuntCanWin` and `BrawlCanLose` show, but which states end it is left open.
- Collaborators.Hunter.TreasureCount: counts claims, repeats included, because `addTreasure` is assumed to append. Since `treasureHunt` never marks the terrain searched, one treasure hunted three times makes the count three (`ThreeHuntsCountThree`), which is a win when the end-of-game rule then ends the game. A `Hunter` that deduplicated would count distinct treasures instead; the model does not decide which the hidden code does.
- Shop pricing, buying and selling are not modelled. A visit's outcome is an input `ShopDeal` of the new gold, the new kit and whether the game is then over.
- `canCrossTerrain` is any function of the hunter and the needed item.
- The static `easyMode` and `samuraiMode` flags are fields of the session. The town methods that read them take them as parameters.
- `Text.Lower` folds only the ASCII letters A to Z, unlike `String.toLowerCase`.
- `showMenu` is modelled one pass at a time (`MenuTurn`). The loop itself and the `play()` sequence are not modelled.
- `Town.toString`, the accessors `getEasyMode`, `getSamuraiMode` and `getTestMode`, and the printing of the old town's news before a move are output only and are not modelled.
- Town methods require the town to hold a hunter, `Session.TreasureHunter.EnterTown` requires the session to hold one, and `ProcessChoice` and `MenuTurn` require `Valid()` (a hunter, and a current town holding it). The Java has no such guard: without them it would throw at src/Town.java:48 or src/TreasureHunter.java:186. Only the call order of `play()` (src/TreasureHunter.java:50-53: `welcomePlayer`, then `enterTown`, then `showMenu`) rules this out, and every town gets its hunter from `enterTown` (src/TreasureHunter.java:134-140). Some branches (`lookForTrouble` with no fight, `treasureHunt` on dust or a searched terrain) would finish normally without a hunter, but the model does not cover that.
