/** The classes Town works with whose code is not part of this model: Hunter,
    Terrain and Shop. Each is given the smallest contract the town and the session
    rely on, and a body that meets it. */
module Collaborators {

  /** Everything about a hunter that the game reads or changes. */
  datatype HunterState = HunterState(
    name: string,
    gold: int,
    kit: set<string>,
    treasures: seq<string>,
    gameOver: bool)

  /** The rule inside Hunter that decides, once gold or treasures have changed,
      whether the game is over. Hunter's code is not part of this model, so the
      rule is a parameter, as canCrossTerrain is. */
  type EndRule = HunterState -> bool

  /** The hunter after Hunter's end-of-game rule has looked at state s. */
  function Settle(s: HunterState, ends: EndRule): HunterState
  {
    s.(gameOver := ends(s))
  }

  /** The player. One Hunter object lives for the whole session and every town
      holds a reference to it. */
  class Hunter {
    const name: string
    var gold: int
    var kit: set<string>
    var treasures: seq<string>
    var gameOver: bool

    function State(): HunterState
      reads this
    {
      HunterState(name, gold, kit, treasures, gameOver)
    }

    /** `new Hunter(name, gold)`: an empty kit, no treasure, the game running. */
    constructor (name: string, gold: int)
      ensures State() == HunterState(name, gold, {}, [], false)
    {
      this.name := name;
      this.gold := gold;
      kit := {};
      treasures := [];
      gameOver := false;
    }

    /** `changeGold(delta)`: adds delta to the purse, which may go negative; the
        end-of-game rule then decides gameOver. */
    method ChangeGold(delta: int, ends: EndRule)
      modifies this
      ensures State() == Settle(old(State()).(gold := old(gold) + delta), ends)
    {
      gold := gold + delta;
      gameOver := ends(State());
    }

    /** `removeItemFromKit(item)`: removes exactly that item. */
    method RemoveItemFromKit(item: string)
      modifies this
      ensures State() == old(State()).(kit := old(kit) - {item})
    {
      kit := kit - {item};
    }

    /** `addItemTest(item)`: puts the item in the kit. */
    method AddItemTest(item: string)
      modifies this
      ensures State() == old(State()).(kit := old(kit) + {item})
    {
      kit := kit + {item};
    }

    /** `addTreasure(t)`: appends t to the collection, without looking for it first.
        Hunter's code is not part of this model; not deduplicating is an assumption.
        The end-of-game rule then decides gameOver. */
    method AddTreasure(t: string, ends: EndRule)
      modifies this
      ensures State() == Settle(old(State()).(treasures := old(treasures) + [t]), ends)
    {
      treasures := treasures + [t];
      gameOver := ends(State());
    }

    predicate HasItemInKit(item: string)
      reads this
    {
      item in kit
    }

    predicate HasTreasure(t: string)
      reads this
    {
      t in treasures
    }

    /** `getTreasureCount()`: the number of claims, repeats included, since
        addTreasure is assumed not to deduplicate. */
    function TreasureCount(): nat
      reads this
    {
      |treasures|
    }
  }

  /** `terrain.canCrossTerrain(hunter)`, left abstract: any rule of the hunter
      and the item the terrain asks for. */
  type CrossRule = (HunterState, string) -> bool

  /** The obstacle around a town: its name, the item that crosses it and the
      treasure hidden in it are fixed; only the searched flag changes. */
  class Terrain {
    const name: string
    const neededItem: string
    const treasure: string
    var searched: bool

    constructor (name: string, neededItem: string, treasure: string)
      ensures this.name == name && this.neededItem == neededItem
      ensures this.treasure == treasure && !searched
    {
      this.name := name;
      this.neededItem := neededItem;
      this.treasure := treasure;
      searched := false;
    }

    method SetSearched()
      modifies this
      ensures searched
    {
      searched := true;
    }
  }

  /** What a visit to the shop leaves the hunter with: gold, kit, and whether the
      game is then over. The shop's pricing is not modelled, so its outcome is an input. */
  datatype ShopDeal = ShopDeal(gold: int, kit: set<string>, gameOver: bool)

  class Shop {
    const markdown: real

    constructor (markdown: real)
      ensures this.markdown == markdown
    {
      this.markdown := markdown;
    }

    /** `shop.enter(hunter, choice)`: may change the hunter's gold, kit and gameOver,
        and nothing else. */
    method Enter(hunter: Hunter, choice: string, deal: ShopDeal)
      modifies hunter
      ensures hunter.State() == old(hunter.State()).(gold := deal.gold, kit := deal.kit, gameOver := deal.gameOver)
    {
      hunter.gold := deal.gold;
      hunter.kit := deal.kit;
      hunter.gameOver := deal.gameOver;
    }
  }
}
