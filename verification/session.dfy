/** The game session (src/TreasureHunter.java): the difficulty mode chosen at the
    start, the starting hunter, the town configuration each mode gives, the
    dispatch of one menu command, and the verdict when the game is over. */
module Session {
  import opened Chance
  import opened Text
  import opened Collaborators
  import opened TownLogic

  /** The five mode flags. */
  datatype Modes = Modes(hard: bool, easy: bool, normal: bool, test: bool, samurai: bool)

  const AllOff := Modes(false, false, false, false, false)

  /** The option question of welcomePlayer: each matching letter switches its
      own flag on, and no flag is ever switched off. */
  function ApplyOption(m: Modes, option: string): Modes
  {
    m.(hard := m.hard || option == "h",
       easy := m.easy || option == "e",
       normal := m.normal || option == "n",
       test := m.test || option == "t",
       samurai := m.samurai || option == "s")
  }

  function FlagsOn(m: Modes): nat
  {
    (if m.hard then 1 else 0) + (if m.easy then 1 else 0) + (if m.normal then 1 else 0) +
    (if m.test then 1 else 0) + (if m.samurai then 1 else 0)
  }

  /** From a fresh session, the typed line (in either case) switches on exactly
      its own flag, and a line that is none of the five letters switches on none. */
  lemma OptionSetsOwnFlag(line: string)
    ensures var m := ApplyOption(AllOff, Lower(line));
      (m.hard <==> line == "h" || line == "H") &&
      (m.easy <==> line == "e" || line == "E") &&
      (m.normal <==> line == "n" || line == "N") &&
      (m.test <==> line == "t" || line == "T") &&
      (m.samurai <==> line == "s" || line == "S") &&
      FlagsOn(m) <= 1 &&
      (FlagsOn(m) == 1 <==> Lower(line) in {"h", "e", "n", "t", "s"})
  {
    LowerIsLetter(line, 'h');
    LowerIsLetter(line, 'e');
    LowerIsLetter(line, 'n');
    LowerIsLetter(line, 't');
    LowerIsLetter(line, 's');
  }

  /** The items a test-mode hunter starts with. */
  const TestKit: set<string> := {"horse", "boat", "machete", "water", "rope", "shovel"}

  /** The hunter welcomePlayer creates for the modes in force. */
  function StartingHunter(name: string, m: Modes): HunterState
  {
    if m.test then HunterState(name, 100, TestKit, [], false)
    else if m.easy then HunterState(name, 20, {}, [], false)
    else HunterState(name, 10, {}, [], false)
  }

  /** The starting purse and kit for each option typed at the start. */
  lemma StartingHunterFor(name: string, line: string)
    ensures var h := StartingHunter(name, ApplyOption(AllOff, Lower(line)));
      h.name == name && h.treasures == [] && !h.gameOver &&
      (Lower(line) == "t" ==> h.gold == 100 && h.kit == TestKit) &&
      (Lower(line) == "e" ==> h.gold == 20 && h.kit == {}) &&
      (Lower(line) != "t" && Lower(line) != "e" ==> h.gold == 10 && h.kit == {})
  {
  }

  /** The shop markdown and town toughness of enterTown. */
  datatype Config = Config(markdown: real, toughness: real)

  /** enterTown's choice of configuration: each flag in turn overrides the one before. */
  function TownConfig(m: Modes): Config
  {
    var c0 := Config(0.5, 0.4);
    var c1 := if m.hard then Config(0.25, 0.75) else c0;
    var c2 := if m.normal then Config(0.5, 0.4) else c1;
    var c3 := if m.samurai then Config(1.0, 0.1) else c2;
    if m.easy then Config(1.0, 0.1) else c3
  }

  /** The configuration for each single mode, and for none. */
  lemma TownConfigFor(line: string)
    ensures var c := TownConfig(ApplyOption(AllOff, Lower(line)));
      (Lower(line) == "h" ==> c == Config(0.25, 0.75)) &&
      (Lower(line) == "e" || Lower(line) == "s" ==> c == Config(1.0, 0.1)) &&
      (Lower(line) != "h" && Lower(line) != "e" && Lower(line) != "s" ==> c == Config(0.5, 0.4))
  {
  }

  /** The state of the game as the menu sees it. */
  datatype Verdict = Playing | Win | Lose

  /** The test at the top of showMenu: once the game is over the hunter has won
      exactly when three treasures were collected. */
  function VerdictOf(h: HunterState): (v: Verdict)
    ensures v != Playing <==> h.gameOver
    ensures v == Win <==> h.gameOver && |h.treasures| == 3
  {
    if h.gameOver then (if |h.treasures| == 3 then Win else Lose) else Playing
  }

  /** A hunt can end the game in a win: a hunter holding two treasures who claims
      a third, when the hunter's end-of-game rule then says the game is over. */
  lemma HuntCanWin(v: Visit, site: Site, ends: EndRule)
    requires site.treasure != "dust" && !v.searched && |v.hunter.treasures| == 2
    requires ends(v.hunter.(treasures := v.hunter.treasures + [site.treasure]))
    ensures VerdictOf(Hunt(v, site, ends).hunter) == Win
  {
  }

  /** A lost brawl can end the game in a loss: the stake is paid, and the game is
      over when the hunter's end-of-game rule says so for the new purse. */
  lemma BrawlCanLose(v: Visit, tough: bool, trouble: Draw, stake: Draw, fight: Draw, ends: EndRule)
    requires trouble <= NoTroubleChance(tough) && fight <= NoTroubleChance(tough)
    requires |v.hunter.treasures| != 3
    requires ends(v.hunter.(gold := v.hunter.gold - Roll(stake, 10)))
    ensures var h := Trouble(v, tough, false, trouble, stake, fight, ends).hunter;
      h.gold < v.hunter.gold && VerdictOf(h) == Lose
  {
  }

  /** The starting-hunter branches of welcomePlayer. */
  method CreateHunter(name: string, m: Modes) returns (h: Hunter)
    ensures fresh(h) && h.State() == StartingHunter(name, m)
  {
    if m.test {
      h := new Hunter(name, 100);
      h.AddItemTest("horse");
      h.AddItemTest("boat");
      h.AddItemTest("machete");
      h.AddItemTest("water");
      h.AddItemTest("rope");
      h.AddItemTest("shovel");
    } else if m.easy {
      h := new Hunter(name, 20);
    } else {
      h := new Hunter(name, 10);
    }
  }

  /** The draws and the shop outcome one menu command may use. */
  datatype Turn = Turn(
    breakDraw: Draw,
    trouble: Draw, stake: Draw, fight: Draw,
    found: Draw, amount: Draw,
    nextTown: TownDraws,
    deal: ShopDeal)

  class TreasureHunter {
    var currentTown: Town?
    var hunter: Hunter?
    var hardMode: bool
    var easyMode: bool
    var normalMode: bool
    var samuraiMode: bool
    var testMode: bool

    function Flags(): Modes
      reads this
    {
      Modes(hardMode, easyMode, normalMode, testMode, samuraiMode)
    }

    /** Once a town is entered: the current town holds the session's hunter. */
    ghost predicate Valid()
      reads this, currentTown
    {
      hunter != null && currentTown != null && currentTown.hunter == hunter
    }

    /** `new TreasureHunter()`: no town, no hunter, every mode off. */
    constructor ()
      ensures currentTown == null && hunter == null && Flags() == AllOff
    {
      currentTown := null;
      hunter := null;
      hardMode := false;
      easyMode := false;
      normalMode := false;
      testMode := false;
      samuraiMode := false;
    }

    /** The option branches of welcomePlayer: each answer turns on its own mode. */
    method SetOption(option: string)
      modifies this
      ensures Flags() == ApplyOption(old(Flags()), option)
      ensures currentTown == old(currentTown) && hunter == old(hunter)
    {
      if option == "h" {
        hardMode := true;
      }
      if option == "e" {
        easyMode := true;
      }
      if option == "n" {
        normalMode := true;
      }
      if option == "t" {
        testMode := true;
      }
      if option == "s" {
        samuraiMode := true;
      }
    }

    /** welcomePlayer, given the two lines the player types. */
    method WelcomePlayer(nameLine: string, optionLine: string)
      modifies this
      ensures Flags() == ApplyOption(old(Flags()), Lower(optionLine))
      ensures currentTown == old(currentTown)
      ensures fresh(hunter) && hunter.State() == StartingHunter(Lower(nameLine), Flags())
    {
      var name := Lower(nameLine);
      SetOption(Lower(optionLine));
      var h := CreateHunter(name, Flags());
      hunter := h;
    }

    /** The configuration step of enterTown. */
    method ChooseConfig() returns (c: Config)
      ensures c == TownConfig(Flags())
    {
      var markdown := 0.5;
      var toughness := 0.4;
      if hardMode {
        markdown := 0.25;
        toughness := 0.75;
      }
      if normalMode {
        markdown := 0.5;
        toughness := 0.4;
      }
      if samuraiMode {
        markdown := 1.0;
        toughness := 0.1;
      }
      if easyMode {
        markdown := 1.0;
        toughness := 0.1;
      }
      c := Config(markdown, toughness);
    }

    /** enterTown: a new town configured by the modes, which the session's
        hunter then enters. */
    method EnterTown(draws: TownDraws)
      requires hunter != null
      modifies this
      ensures Valid() && hunter == old(hunter) && Flags() == old(Flags())
      ensures fresh(currentTown) && fresh(currentTown.terrain)
      ensures currentTown.shop.markdown == TownConfig(Flags()).markdown
      ensures currentTown.toughTown == (draws.tough < TownConfig(Flags()).toughness)
      ensures currentTown.TerrainSite() == NewSite(draws.kind, draws.hidden)
      ensures currentTown.Snapshot() == Arrive(hunter.State(), currentTown.TerrainSite(), currentTown.toughTown, false, "")
    {
      var c := ChooseConfig();
      var shop := new Shop(c.markdown);
      var town := new Town(shop, c.toughness, draws);
      town.HunterArrives(hunter);
      assert town.Snapshot() == Arrive(hunter.State(), town.TerrainSite(), town.toughTown, false, "");
      currentTown := town;
    }

    /** The effect processChoice promises for one command, between the state
        before it (old) and the state after it. */
    twostate predicate Processed(choice: string, turn: Turn, canCross: CrossRule, ends: EndRule)
      requires old(Valid()) && Valid()
      reads this, hunter, currentTown, currentTown.terrain
    {
      hunter == old(hunter) && Flags() == old(Flags()) &&
      (choice == "b" || choice == "s" ==>
        currentTown == old(currentTown) &&
        currentTown.Snapshot() == Shopping(old(currentTown.Snapshot()), turn.deal)) &&
      (choice == "m" ==>
        var d := Leave(old(currentTown.Snapshot()), old(currentTown.TerrainSite()),
                       canCross(old(hunter.State()), old(currentTown.terrain.neededItem)),
                       turn.breakDraw, old(easyMode));
        if d.left then
          fresh(currentTown) &&
          currentTown.shop.markdown == TownConfig(Flags()).markdown &&
          currentTown.toughTown == (turn.nextTown.tough < TownConfig(Flags()).toughness) &&
          currentTown.TerrainSite() == NewSite(turn.nextTown.kind, turn.nextTown.hidden) &&
          currentTown.Snapshot() == Arrive(d.visit.hunter, currentTown.TerrainSite(), currentTown.toughTown, false, "")
        else
          currentTown == old(currentTown) && currentTown.Snapshot() == d.visit) &&
      (choice == "l" ==>
        currentTown == old(currentTown) &&
        currentTown.Snapshot() == Trouble(old(currentTown.Snapshot()), currentTown.toughTown, samuraiMode,
                                          turn.trouble, turn.stake, turn.fight, ends)) &&
      (choice == "h" ==>
        currentTown == old(currentTown) &&
        currentTown.Snapshot() == Hunt(old(currentTown.Snapshot()), currentTown.TerrainSite(), ends)) &&
      (choice == "d" ==>
        currentTown == old(currentTown) &&
        currentTown.Snapshot() == Dig(old(currentTown.Snapshot()), currentTown.terrain.name, turn.found, turn.amount, ends)) &&
      (choice !in {"b", "s", "m", "l", "h", "d"} ==>
        currentTown == old(currentTown) && currentTown.Snapshot() == old(currentTown.Snapshot()))
    }

    /** processChoice: the command already lower-cased. */
    method ProcessChoice(choice: string, turn: Turn, canCross: CrossRule, ends: EndRule)
      requires Valid()
      modifies this, hunter, currentTown, currentTown.terrain
      ensures Valid() && Processed(choice, turn, canCross, ends)
    {
      if choice == "b" || choice == "s" {
        currentTown.EnterShop(choice, turn.deal);
      } else if choice == "m" {
        var left := currentTown.LeaveTown(canCross, turn.breakDraw, easyMode);
        if left {
          EnterTown(turn.nextTown);
        }
      } else if choice == "l" {
        currentTown.LookForTrouble(samuraiMode, turn.trouble, turn.stake, turn.fight, ends);
      } else if choice == "h" {
        currentTown.TreasureHunt(ends);
      } else if choice == "x" {
      } else if choice == "d" {
        currentTown.DiggingForGold(turn.found, turn.amount, ends);
      } else {
      }
    }

    /** One pass of showMenu's loop: a game that is over ends with "x" and its
        verdict; otherwise the typed line is lower-cased and processed. */
    method MenuTurn(line: string, turn: Turn, canCross: CrossRule, ends: EndRule) returns (choice: string, verdict: Verdict)
      requires Valid()
      modifies this, hunter, currentTown, currentTown.terrain
      ensures Valid() && hunter == old(hunter) && Flags() == old(Flags())
      ensures verdict == VerdictOf(old(hunter.State()))
      ensures old(hunter.gameOver) ==> choice == "x" && currentTown == old(currentTown) &&
                                       currentTown.Snapshot() == old(currentTown.Snapshot())
      ensures !old(hunter.gameOver) ==> choice == Lower(line) && Processed(choice, turn, canCross, ends)
    {
      if hunter.gameOver {
        choice := "x";
        if hunter.TreasureCount() == 3 {
          verdict := Win;
        } else {
          verdict := Lose;
        }
      } else {
        verdict := Playing;
        choice := Lower(line);
        ProcessChoice(choice, turn, canCross, ends);
      }
    }
  }
}
