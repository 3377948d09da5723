/** One town visit (src/Town.java): the terrain and treasure tables, and the
    travel, brawl, treasure-hunt, dig and shop operations, first as functions on
    a Visit value and then as the methods of class Town, which are proved to
    change the town and its hunter exactly as those functions say. */
module TownLogic {
  import opened Chance
  import opened Text
  import opened Collaborators

  /** The six terrains, in die order, each with the item that crosses it. */
  const TerrainTable: seq<(string, string)> := [
    ("Mountains", "Rope"), ("Ocean", "Boat"), ("Plains", "Horse"),
    ("Desert", "Water"), ("Jungle", "Machete"), ("Marsh", "Boots")]

  /** The four treasures, in die order; "dust" stands for no treasure. */
  const TreasureTable: seq<string> := ["crown", "dust", "gem", "trophy"]

  /** The branches of getNewTerrain on a die face: faces 1 to 6 pick the table
      entries in order, and any other face falls through to the last one. */
  function TerrainFor(face: int): (t: (string, string))
    ensures 1 <= face <= 6 ==> t == TerrainTable[face - 1]
    ensures !(1 <= face <= 5) ==> t == TerrainTable[5]
  {
    if face == 1 then ("Mountains", "Rope")
    else if face == 2 then ("Ocean", "Boat")
    else if face == 3 then ("Plains", "Horse")
    else if face == 4 then ("Desert", "Water")
    else if face == 5 then ("Jungle", "Machete")
    else ("Marsh", "Boots")
  }

  /** The branches of treasureRandom on a die face. */
  function TreasureFor(face: int): (t: string)
    ensures 1 <= face <= 4 ==> t == TreasureTable[face - 1]
    ensures !(1 <= face <= 3) ==> t == TreasureTable[3]
  {
    if face == 1 then "crown"
    else if face == 2 then "dust"
    else if face == 3 then "gem"
    else "trophy"
  }

  /** The fixed part of a terrain. */
  datatype Site = Site(name: string, neededItem: string, treasure: string)

  /** The terrain a new town gets from its two draws. */
  function NewSite(kind: Draw, hidden: Draw): Site
  {
    var t := TerrainFor(Roll(kind, 6));
    Site(t.0, t.1, TreasureFor(Roll(hidden, 4)))
  }

  /** Every draw gives one of the six terrains with its own item and one of the
      four treasures; every terrain and every treasure is reached by some draw. */
  lemma NewSiteRange(kind: Draw, hidden: Draw)
    ensures (NewSite(kind, hidden).name, NewSite(kind, hidden).neededItem) in TerrainTable
    ensures NewSite(kind, hidden).treasure in TreasureTable
    ensures forall k :: 0 <= k < 6 ==> exists r: Draw :: TerrainFor(Roll(r, 6)) == TerrainTable[k]
    ensures forall k :: 0 <= k < 4 ==> exists r: Draw :: TreasureFor(Roll(r, 4)) == TreasureTable[k]
  {
    forall k | 0 <= k < 6
      ensures exists r: Draw :: TerrainFor(Roll(r, 6)) == TerrainTable[k]
    {
      RollReachesEveryFace(6, k + 1);
      var r: Draw := k as real / 6.0;
      assert TerrainFor(Roll(r, 6)) == TerrainTable[k];
    }
    forall k | 0 <= k < 4
      ensures exists r: Draw :: TreasureFor(Roll(r, 4)) == TreasureTable[k]
    {
      RollReachesEveryFace(4, k + 1);
      var r: Draw := k as real / 4.0;
      assert TreasureFor(Roll(r, 4)) == TreasureTable[k];
    }
  }

  /** How a brawl ends: no fight, or a fight won or lost for a stake. */
  datatype Brawl = NoTrouble | Won(stake: nat) | Lost(stake: nat)

  /** The latest news of a town, by what produced it; Render gives its text. */
  datatype News =
    | Quiet                                                 // a town nobody has entered
    | Welcome(hunterName: string, tough: bool)              // hunterArrives
    | Crossed(item: string, terrainName: string, lost: bool) // leaveTown, crossing
    | Stuck(stuckName: string, missing: string)              // leaveTown, staying
    | LeftShop                                              // enterShop
    | Fight(brawl: Brawl, sword: bool)                      // lookForTrouble

  /** The decimal digits of n, as string concatenation prints an int. */
  function Decimal(n: nat): string
  {
    if n < 10 then ["0123456789"[n]] else Decimal(n / 10) + ["0123456789"[n % 10]]
  }

  /** The second line of the welcome, by the town's toughness. */
  function Flavour(tough: bool): string
  {
    if tough then "\nIt's pretty rough around here, so watch yourself."
    else "\nWe're just a sleepy little town with mild mannered folk."
  }

  /** The text of the news, as the town writes it into printMessage. */
  function Render(news: News): string
  {
    match news
    case Quiet => ""
    case Welcome(name, tough) =>
      "Welcome to town, " + name + "." + Flavour(tough)
    case Crossed(item, terrainName, lost) =>
      "You used your " + item + " to cross the " + terrainName + "." +
      (if lost then "\nUnfortunately, you lost your " + item else "")
    case Stuck(name, item) =>
      "You can't leave town, " + name + ". You don't have a " + item + "."
    case LeftShop => "You left the shop"
    case Fight(NoTrouble, _) => "You couldn't find any trouble"
    case Fight(Won(g), sword) =>
      "You want trouble, stranger!  You got it!\nOof! Umph! Ow!\n" +
      (if sword then "The brawler, seeing your sword, realizes he picked a losing fight and gives you his gold"
       else "Okay, stranger! You proved yer mettle. Here, take my gold.") +
      "\nYou won the brawl and receive " + Decimal(g) + " gold."
    case Fight(Lost(g), _) =>
      "You want trouble, stranger!  You got it!\nOof! Umph! Ow!\n" +
      "That'll teach you to go lookin' fer trouble in MY town! Now pay up!" +
      "\nYou lost the brawl and pay " + Decimal(g) + " gold."
  }

  /** What one town visit changes: the hunter, the terrain's searched flag, the
      latest news and the dig log. */
  datatype Visit = Visit(hunter: HunterState, searched: bool, news: News, diggerLog: string)

  /** hunterArrives: the town now holds this hunter; the terrain counts as searched
      if the hunter already has its treasure. */
  function Arrive(h: HunterState, site: Site, tough: bool, searched: bool, log: string): Visit
  {
    Visit(h, searched || site.treasure in h.treasures, Welcome(h.name, tough), log)
  }

  /** In a + b + c + d, the first three pieces are a prefix and b occurs. */
  lemma InfixOfFour(a: string, b: string, c: string, d: string)
    ensures a + b + c <= a + b + c + d
    ensures Contains(a + b + c + d, b)
  {
    ContainsInfix(a, b, c + d);
    assert a + b + c + d == a + b + (c + d);
  }

  /** The welcome opens with the hunter's name and so contains it. */
  lemma WelcomeText(name: string, tough: bool)
    ensures "Welcome to town, " + name + "." <= Render(Welcome(name, tough))
    ensures Contains(Render(Welcome(name, tough)), name)
  {
    var opening := "Welcome to town, ";
    assert Render(Welcome(name, tough)) == opening + name + "." + Flavour(tough);
    InfixOfFour(opening, name, ".", Flavour(tough));
  }

  /** Arrival changes neither gold nor kit, marks the terrain searched exactly
      when its treasure is already owned, and greets the hunter by name. */
  lemma ArriveRule(h: HunterState, site: Site, tough: bool, searched: bool, log: string)
    ensures var v := Arrive(h, site, tough, searched, log);
      v.hunter == h && v.diggerLog == log &&
      (v.searched <==> searched || site.treasure in h.treasures) &&
      "Welcome to town, " + h.name + "." <= Render(v.news) &&
      Contains(Render(v.news), h.name)
  {
    WelcomeText(h.name, tough);
  }

  /** checkItemBreak: the item breaks on a draw below one half. */
  predicate ItemBreaks(r: Draw)
  {
    r < 0.5
  }

  /** Whether the hunter left, and the visit afterwards. */
  datatype Departure = Departure(left: bool, visit: Visit)

  /** leaveTown, given the verdict of canCrossTerrain. */
  function Leave(v: Visit, site: Site, canCross: bool, breakDraw: Draw, easy: bool): Departure
  {
    if canCross then
      if ItemBreaks(breakDraw) && !easy then
        Departure(true, v.(hunter := v.hunter.(kit := v.hunter.kit - {site.neededItem}),
                           news := Crossed(site.neededItem, site.name, true)))
      else
        Departure(true, v.(news := Crossed(site.neededItem, site.name, false)))
    else
      Departure(false, v.(news := Stuck(v.hunter.name, site.neededItem)))
  }

  /** The hunter leaves exactly when the terrain can be crossed; a hunter who
      stays keeps gold and kit and is told which item is missing. */
  lemma LeaveGate(v: Visit, site: Site, canCross: bool, breakDraw: Draw, easy: bool)
    ensures var d := Leave(v, site, canCross, breakDraw, easy);
      (d.left <==> canCross) &&
      (!d.left ==> d.visit.hunter == v.hunter && d.visit.searched == v.searched &&
                   d.visit.diggerLog == v.diggerLog && Contains(Render(d.visit.news), site.neededItem))
  {
    if !canCross {
      ContainsInfix("You can't leave town, " + v.hunter.name + ". You don't have a ", site.neededItem, ".");
    }
  }

  /** Crossing costs at most the needed item, and only on a low break draw outside
      easy mode. */
  lemma LeaveBreakage(v: Visit, site: Site, canCross: bool, breakDraw: Draw, easy: bool)
    requires canCross
    ensures var w := Leave(v, site, canCross, breakDraw, easy).visit;
      w.hunter == v.hunter.(kit := w.hunter.kit) &&
      w.searched == v.searched && w.diggerLog == v.diggerLog &&
      (w.hunter.kit == if breakDraw < 0.5 && !easy then v.hunter.kit - {site.neededItem} else v.hunter.kit) &&
      v.hunter.kit - w.hunter.kit <= {site.neededItem} &&
      (easy ==> w.hunter.kit == v.hunter.kit)
  {
  }

  /** After crossing, the news names the item used and the terrain crossed. */
  lemma LeaveNews(v: Visit, site: Site, canCross: bool, breakDraw: Draw, easy: bool)
    requires canCross
    ensures var w := Leave(v, site, canCross, breakDraw, easy).visit;
      Contains(Render(w.news), site.neededItem) && Contains(Render(w.news), site.name)
  {
    var crossed := "You used your " + site.neededItem + " to cross the " + site.name + ".";
    var lost := if ItemBreaks(breakDraw) && !easy then "\nUnfortunately, you lost your " + site.neededItem else "";
    ContainsInfix("You used your ", site.neededItem, " to cross the " + site.name + ".");
    assert crossed == "You used your " + site.neededItem + (" to cross the " + site.name + ".");
    ContainsInfix("You used your " + site.neededItem + " to cross the ", site.name, ".");
    ContainsExtended(crossed, lost, site.neededItem);
    ContainsExtended(crossed, lost, site.name);
  }

  /** lookForTrouble's threshold: a tough town hides less of a fight. */
  function NoTroubleChance(tough: bool): real
  {
    if tough then 0.66 else 0.33
  }

  /** lookForTrouble's three draws: finding a fight, the stake, winning it. */
  function BrawlFor(tough: bool, samurai: bool, trouble: Draw, stake: Draw, fight: Draw): (b: Brawl)
    ensures !b.NoTrouble? ==> 1 <= b.stake <= 10
  {
    var chance := NoTroubleChance(tough);
    if trouble > chance then NoTrouble
    else
      var g := Roll(stake, 10);
      if fight > chance || samurai then Won(g) else Lost(g)
  }

  function GoldChange(b: Brawl): int
  {
    match b
    case NoTrouble => 0
    case Won(g) => g
    case Lost(g) => -(g as int)
  }

  /** lookForTrouble; the sword changes only the words of a samurai's win. A
      brawl that happens pays through changeGold, after which the hunter's
      end-of-game rule decides gameOver. */
  function Trouble(v: Visit, tough: bool, samurai: bool, trouble: Draw, stake: Draw, fight: Draw,
                   ends: EndRule): Visit
  {
    var b := BrawlFor(tough, samurai, trouble, stake, fight);
    v.(hunter := if b.NoTrouble? then v.hunter
                 else Settle(v.hunter.(gold := v.hunter.gold + GoldChange(b)), ends),
       news := Fight(b, b.Won? && samurai && "sword" in v.hunter.kit))
  }

  /** A brawl changes only gold and the news: nothing on a first draw above the
      threshold, otherwise a win or loss of 1 to 10 gold, won exactly when the
      second draw beats the same threshold or samurai mode is on. */
  lemma TroubleGold(v: Visit, tough: bool, samurai: bool, trouble: Draw, stake: Draw, fight: Draw,
                    ends: EndRule)
    ensures var w := Trouble(v, tough, samurai, trouble, stake, fight, ends);
      var delta := w.hunter.gold - v.hunter.gold;
      var chance := if tough then 0.66 else 0.33;
      var paid := v.hunter.(gold := w.hunter.gold);
      w.searched == v.searched && w.diggerLog == v.diggerLog &&
      (trouble > chance ==> w.hunter == v.hunter && Render(w.news) == "You couldn't find any trouble") &&
      (trouble <= chance ==>
        w.hunter == paid.(gameOver := ends(paid)) &&
        (1 <= delta <= 10 || -10 <= delta <= -1) &&
        (delta > 0 <==> fight > chance || samurai)) &&
      (samurai ==> delta >= 0)
  {
  }

  /** What the hunter carries never decides a brawl: two hunters meeting the same
      draws win or lose the same gold, and a sword changes only the words. */
  lemma SwordOnlyChangesWords(v: Visit, kit: set<string>, tough: bool, samurai: bool,
                              trouble: Draw, stake: Draw, fight: Draw, ends: EndRule)
    ensures var w := Trouble(v, tough, samurai, trouble, stake, fight, ends);
      var u := v.(hunter := v.hunter.(kit := kit));
      var w' := Trouble(u, tough, samurai, trouble, stake, fight, ends);
      w'.hunter.gold == w.hunter.gold && w'.news.brawl == w.news.brawl &&
      w'.hunter.kit == kit && w'.hunter.treasures == w.hunter.treasures
  {
  }

  /** treasureHunt: claims the terrain's treasure unless it is dust or the terrain
      was searched; the searched flag is never set here. The claim goes through
      addTreasure, after which the hunter's end-of-game rule decides gameOver. */
  function Hunt(v: Visit, site: Site, ends: EndRule): Visit
  {
    if site.treasure == "dust" then v
    else if !v.searched then
      v.(hunter := Settle(v.hunter.(treasures := v.hunter.treasures + [site.treasure]), ends))
    else v
  }

  lemma HuntRule(v: Visit, site: Site, ends: EndRule)
    ensures var w := Hunt(v, site, ends);
      var claimed := v.hunter.(treasures := v.hunter.treasures + [site.treasure]);
      w.searched == v.searched && w.news == v.news && w.diggerLog == v.diggerLog &&
      (site.treasure == "dust" || v.searched ==> w == v) &&
      (site.treasure != "dust" && !v.searched ==>
        w.hunter == claimed.(gameOver := ends(claimed)))
  {
  }

  /** Because the flag is not set, a second hunt on an unsearched terrain claims
      the treasure a second time. That the collection then holds two copies comes
      from Hunter.AddTreasure's assumed contract (append, no deduplication). */
  lemma HuntRepeats(v: Visit, site: Site, ends: EndRule)
    requires site.treasure != "dust" && !v.searched
    ensures Hunt(Hunt(v, site, ends), site, ends).hunter.treasures == v.hunter.treasures + [site.treasure, site.treasure]
  {
  }

  /** With the appending addTreasure, the count that decides the verdict counts
      repeat claims: three hunts on one unsearched terrain make a count of three. */
  lemma ThreeHuntsCountThree(v: Visit, site: Site, ends: EndRule)
    requires site.treasure != "dust" && !v.searched && v.hunter.treasures == []
    ensures Hunt(Hunt(Hunt(v, site, ends), site, ends), site, ends).hunter.treasures
            == [site.treasure, site.treasure, site.treasure]
  {
  }

  /** A hunter who arrives already holding the treasure finds nothing new. */
  lemma ArriveThenHunt(h: HunterState, site: Site, tough: bool, searched: bool, log: string, ends: EndRule)
    requires site.treasure in h.treasures
    ensures Hunt(Arrive(h, site, tough, searched, log), site, ends).hunter == h
  {
  }

  /** diggingForGold: with a shovel, on a terrain not yet in the dig log, a low
      first draw finds 1 to 20 gold, paid through changeGold (after which the
      hunter's end-of-game rule decides gameOver); the terrain name joins the log
      either way. */
  function Dig(v: Visit, siteName: string, found: Draw, amount: Draw, ends: EndRule): Visit
  {
    if "shovel" in v.hunter.kit then
      if Contains(v.diggerLog, siteName) then v
      else
        var h := if Roll(found, 2) - 1 == 0
                 then Settle(v.hunter.(gold := v.hunter.gold + Roll(amount, 20)), ends)
                 else v.hunter;
        v.(hunter := h, diggerLog := v.diggerLog + siteName)
    else v
  }

  lemma DigRule(v: Visit, siteName: string, found: Draw, amount: Draw, ends: EndRule)
    ensures var w := Dig(v, siteName, found, amount, ends);
      var gain := w.hunter.gold - v.hunter.gold;
      var paid := v.hunter.(gold := w.hunter.gold);
      w.searched == v.searched && w.news == v.news &&
      ("shovel" !in v.hunter.kit || Contains(v.diggerLog, siteName) ==> w == v) &&
      ("shovel" in v.hunter.kit && !Contains(v.diggerLog, siteName) ==>
        w.diggerLog == v.diggerLog + siteName &&
        (gain == 0 ==> w.hunter == v.hunter) &&
        (gain > 0 ==> w.hunter == paid.(gameOver := ends(paid))) &&
        (gain == 0 || 1 <= gain <= 20) &&
        (gain > 0 <==> found < 0.5))
  {
    RollTwo(found);
  }

  /** A second dig in the same town changes nothing, whatever its draws. */
  lemma {:induction false} DigTwice(v: Visit, siteName: string, f1: Draw, a1: Draw, f2: Draw, a2: Draw,
                                    ends: EndRule)
    ensures var w := Dig(v, siteName, f1, a1, ends);
      Dig(w, siteName, f2, a2, ends) == w
  {
    if "shovel" in v.hunter.kit && !Contains(v.diggerLog, siteName) {
      ContainsInfix(v.diggerLog, siteName, "");
      assert v.diggerLog + siteName + "" == v.diggerLog + siteName;
    }
  }

  /** enterShop: whatever the shop did to gold, kit and gameOver, then the news. */
  function Shopping(v: Visit, deal: ShopDeal): Visit
  {
    v.(hunter := v.hunter.(gold := deal.gold, kit := deal.kit, gameOver := deal.gameOver), news := LeftShop)
  }

  /** The three draws a new town takes: terrain, treasure, toughness. */
  datatype TownDraws = TownDraws(kind: Draw, hidden: Draw, tough: Draw)

  /** A town. The hunter is null until one arrives. */
  class Town {
    var hunter: Hunter?
    const shop: Shop
    const terrain: Terrain
    var printMessage: News
    const toughTown: bool
    var diggerLog: string

    function TerrainSite(): Site
    {
      Site(terrain.name, terrain.neededItem, terrain.treasure)
    }

    /** getLatestNews. */
    function LatestNews(): string
      reads this
    {
      Render(printMessage)
    }

    /** The visit as the functions above see it. */
    ghost function Snapshot(): Visit
      requires hunter != null
      reads this, hunter, terrain
    {
      Visit(hunter.State(), terrain.searched, printMessage, diggerLog)
    }

    /** `new Town(shop, toughness)`: a fresh terrain from two draws, no hunter,
        and a tough town when the third draw is below the toughness. */
    constructor (shop: Shop, toughness: real, draws: TownDraws)
      ensures this.shop == shop && hunter == null
      ensures fresh(terrain) && !terrain.searched
      ensures TerrainSite() == NewSite(draws.kind, draws.hidden)
      ensures diggerLog == "" && LatestNews() == ""
      ensures toughTown == (draws.tough < toughness)
    {
      this.shop := shop;
      var t := NewTerrain(draws.kind, draws.hidden);
      terrain := t;
      diggerLog := "";
      hunter := null;
      printMessage := Quiet;
      toughTown := draws.tough < toughness;
    }

    /** hunterArrives. */
    method HunterArrives(h: Hunter)
      modifies this, terrain
      ensures hunter == h
      ensures Snapshot() == Arrive(h.State(), TerrainSite(), toughTown, old(terrain.searched), old(diggerLog))
    {
      hunter := h;
      if h.HasTreasure(terrain.treasure) {
        terrain.SetSearched();
      }
      printMessage := Welcome(h.name, toughTown);
    }

    /** leaveTown. */
    method LeaveTown(canCross: CrossRule, breakDraw: Draw, easy: bool) returns (left: bool)
      requires hunter != null
      modifies this, hunter
      ensures hunter == old(hunter)
      ensures Departure(left, Snapshot()) ==
        Leave(old(Snapshot()), TerrainSite(), canCross(old(hunter.State()), terrain.neededItem), breakDraw, easy)
    {
      var canLeaveTown := canCross(hunter.State(), terrain.neededItem);
      if canLeaveTown {
        var item := terrain.neededItem;
        printMessage := Crossed(item, terrain.name, false);
        if ItemBreaks(breakDraw) && !easy {
          hunter.RemoveItemFromKit(item);
          printMessage := printMessage.(lost := true);
        }
        return true;
      }
      printMessage := Stuck(hunter.name, terrain.neededItem);
      return false;
    }

    /** enterShop. */
    method EnterShop(choice: string, deal: ShopDeal)
      requires hunter != null
      modifies this, hunter
      ensures hunter == old(hunter)
      ensures Snapshot() == Shopping(old(Snapshot()), deal)
    {
      shop.Enter(hunter, choice, deal);
      printMessage := LeftShop;
    }

    /** lookForTrouble. */
    method LookForTrouble(samurai: bool, trouble: Draw, stake: Draw, fight: Draw, ends: EndRule)
      requires hunter != null
      modifies this, hunter
      ensures hunter == old(hunter)
      ensures Snapshot() == Trouble(old(Snapshot()), toughTown, samurai, trouble, stake, fight, ends)
    {
      var noTroubleChance: real;
      if toughTown {
        noTroubleChance := 0.66;
      } else {
        noTroubleChance := 0.33;
      }
      if trouble > noTroubleChance {
        printMessage := Fight(NoTrouble, false);
      } else {
        var goldDiff := Roll(stake, 10);
        if fight > noTroubleChance || samurai {
          printMessage := Fight(Won(goldDiff), samurai && hunter.HasItemInKit("sword"));
          hunter.ChangeGold(goldDiff, ends);
        } else {
          printMessage := Fight(Lost(goldDiff), false);
          hunter.ChangeGold(-goldDiff, ends);
        }
      }
    }

    /** treasureHunt. */
    method TreasureHunt(ends: EndRule)
      requires hunter != null
      modifies hunter
      ensures Snapshot() == Hunt(old(Snapshot()), TerrainSite(), ends)
    {
      if terrain.treasure == "dust" {
      } else {
        if !terrain.searched {
          hunter.AddTreasure(terrain.treasure, ends);
        }
      }
    }

    /** diggingForGold. */
    method DiggingForGold(found: Draw, amount: Draw, ends: EndRule)
      requires hunter != null
      modifies this, hunter
      ensures hunter == old(hunter)
      ensures Snapshot() == Dig(old(Snapshot()), terrain.name, found, amount, ends)
    {
      if hunter.HasItemInKit("shovel") {
        if Contains(diggerLog, terrain.name) {
        } else {
          var rnd1 := Roll(found, 2) - 1;
          if rnd1 == 0 {
            var rnd2 := Roll(amount, 20);
            hunter.ChangeGold(rnd2, ends);
          }
          diggerLog := diggerLog + terrain.name;
        }
      }
    }
  }

  /** getNewTerrain with treasureRandom. */
  method NewTerrain(kind: Draw, hidden: Draw) returns (t: Terrain)
    ensures fresh(t) && !t.searched
    ensures Site(t.name, t.neededItem, t.treasure) == NewSite(kind, hidden)
  {
    var rnd := Roll(kind, 6);
    var treasure := TreasureFor(Roll(hidden, 4));
    if rnd == 1 {
      t := new Terrain("Mountains", "Rope", treasure);
    } else if rnd == 2 {
      t := new Terrain("Ocean", "Boat", treasure);
    } else if rnd == 3 {
      t := new Terrain("Plains", "Horse", treasure);
    } else if rnd == 4 {
      t := new Terrain("Desert", "Water", treasure);
    } else if rnd == 5 {
      t := new Terrain("Jungle", "Machete", treasure);
    } else {
      t := new Terrain("Marsh", "Boots", treasure);
    }
  }
}
