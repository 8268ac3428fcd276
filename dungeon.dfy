/** Dungeon: a map of rooms joined by named exits, events that fire on
    entering a room, an inventory of counted items, and turn-based battles
    with a one-turn shield. Every answer typed at a prompt is taken as the
    word `.lower().strip()` makes of it. */
module Dungeon {
  import opened Util
  import opened PyStr

  /** `max_hp` and `attack_power` are set once and never reassigned. */
  const MaxHp := 100
  const AttackPower := 15

  // ---------------------------------------------------------------- rooms

  datatype Event = NoEvent | TrapEvent | PuzzleEvent | TreasureEvent | EnemyEvent | BossEvent

  /** A room: the event run on entering it and its named exits. */
  datatype Room = Room(event: Event, options: map<string, string>)

  /** The `rooms` table; descriptions are left out. */
  function Rooms(): map<string, Room> {
    map[
      "start" := Room(NoEvent, map["left" := "trap_room", "right" := "puzzle_room"]),
      "trap_room" := Room(TrapEvent, map["forward" := "treasure_room", "back" := "start"]),
      "puzzle_room" := Room(PuzzleEvent, map["open" := "enemy_room", "back" := "start"]),
      "treasure_room" := Room(TreasureEvent, map["forward" := "enemy_room", "back" := "trap_room"]),
      "enemy_room" := Room(EnemyEvent, map["forward" := "boss_room", "back" := "treasure_room"]),
      "boss_room" := Room(BossEvent, map["escape" := "exit", "back" := "enemy_room"]),
      "exit" := Room(NoEvent, map[])
    ]
  }

  /** Every exit leads to a room of the table, "start" is one, and "exit" is a dead end. */
  lemma RoomsClosed()
    ensures "start" in Rooms() && "exit" in Rooms() && Rooms()["exit"] == Room(NoEvent, map[])
    ensures forall r, o :: r in Rooms() && o in Rooms()[r].options ==> Rooms()[r].options[o] in Rooms()
  {
    var rooms := Rooms();
    forall r, o | r in rooms && o in rooms[r].options
      ensures rooms[r].options[o] in rooms
    {
      assert r in {"start", "trap_room", "puzzle_room", "treasure_room", "enemy_room", "boss_room", "exit"};
    }
  }

  /** The navigation step of `play_game`: an exit's name moves there,
      "inventory" and anything else stay put. */
  function Navigate(room: string, choice: string): (r: string)
    requires room in Rooms()
    ensures r in Rooms()
    ensures r != room ==> choice in Rooms()[room].options
    ensures choice in Rooms()[room].options ==> r == Rooms()[room].options[choice]
  {
    RoomsClosed();
    if choice == "inventory" then room
    else if choice in Rooms()[room].options then Rooms()[room].options[choice]
    else room
  }

  // ---------------------------------------------------------------- items

  /** `inventory.get(item, 0)`. */
  function Count(inv: map<string, int>, item: string): int {
    if item in inv then inv[item] else 0
  }

  /** No item is kept with a count of zero or less. */
  predicate InventoryOk(inv: map<string, int>) {
    forall item :: item in inv ==> inv[item] > 0
  }

  /** `hp = min(max_hp, hp + amount)`. */
  function Healed(hp: int, amount: int): (r: int)
    requires amount >= 0
    ensures r <= MaxHp && (r == hp + amount || r == MaxHp)
    ensures hp <= MaxHp ==> hp <= r
  {
    Min(MaxHp, hp + amount)
  }

  /** What `use_item` leaves: hit points, inventory, and the item used, if any. */
  datatype ItemUse = ItemUse(hp: int, inventory: map<string, int>, used: Option<string>)

  /** `use_item`, for the item name typed and the potion's draw `heal`. */
  function UseItemOn(hp: int, inv: map<string, int>, item: string, heal: int): (r: ItemUse)
    requires 20 <= heal <= 35
    ensures r.used.None? <==> inv == map[] || Count(inv, item) <= 0
    ensures r.used.None? ==> r.hp == hp && r.inventory == inv
    ensures r.used.Some? ==>
      && r.used.value == item
      && Count(r.inventory, r.used.value) == Count(inv, r.used.value) - 1
      && (forall item :: item != r.used.value ==> Count(r.inventory, item) == Count(inv, item))
      && r.hp == (if r.used.value == "potion" then Healed(hp, heal) else hp)
    ensures InventoryOk(inv) ==> InventoryOk(r.inventory)
  {
    if inv == map[] then ItemUse(hp, inv, None)
    else
      if item in inv && inv[item] > 0 then
        var hp' := if item == "potion" then Healed(hp, heal) else hp;
        var left := inv[item := inv[item] - 1];
        var inv' := if left[item] == 0 then left - {item} else left;
        ItemUse(hp', inv', Some(item))
      else ItemUse(hp, inv, None)
  }

  /** `player.inventory[item] = player.inventory.get(item, 0) + 1`. */
  function Gain(inv: map<string, int>, item: string): (r: map<string, int>)
    ensures Count(r, item) == Count(inv, item) + 1
    ensures forall other :: other != item ==> Count(r, other) == Count(inv, other)
    ensures InventoryOk(inv) ==> InventoryOk(r)
  {
    inv[item := Count(inv, item) + 1]
  }

  class Player {
    var hp: int
    var inventory: map<string, int>
    var gold: int

    constructor()
      ensures hp == MaxHp && inventory == map["potion" := 2, "shield" := 1] && gold == 0
    {
      hp := MaxHp;
      inventory := map["potion" := 2, "shield" := 1];
      gold := 0;
    }

    /** `Player.use_item`. */
    method UseItem(item: string, heal: int) returns (used: Option<string>)
      requires 20 <= heal <= 35
      modifies this
      ensures ItemUse(hp, inventory, used) == UseItemOn(old(hp), old(inventory), item, heal)
      ensures gold == old(gold)
    {
      if inventory == map[] {
        return None;
      }
      if item in inventory && inventory[item] > 0 {
        if item == "potion" {
          hp := Healed(hp, heal);
        }
        inventory := inventory[item := inventory[item] - 1];
        if inventory[item] == 0 {
          inventory := inventory - {item};
        }
        used := Some(item);
      } else {
        used := None;
      }
    }
  }

  // ---------------------------------------------------------------- battle

  class Enemy {
    const name: string
    var hp: int
    const attackPower: int
    const goldReward: int

    constructor(name: string, hp: int, attackPower: int, goldReward: int)
      ensures this.name == name && this.hp == hp && this.attackPower == attackPower && this.goldReward == goldReward
    {
      this.name := name;
      this.hp := hp;
      this.attackPower := attackPower;
      this.goldReward := goldReward;
    }
  }

  /** One pass of the battle loop: the action typed, and the draws it may
      use — the player's hit, the item name and potion draw, the enemy's hit. */
  datatype Turn = Turn(action: string, hit: int, item: string, heal: int, enemyHit: int)

  /** The draws in range: the hit `randint(attack_power - 5, attack_power + 5)`,
      the potion `randint(20, 35)`, and an enemy hit that is not negative. */
  predicate RoundOk(t: Turn) {
    AttackPower - 5 <= t.hit <= AttackPower + 5 && 20 <= t.heal <= 35 && 0 <= t.enemyHit
  }

  predicate RoundsOk(turns: seq<Turn>) {
    forall k :: 0 <= k < |turns| ==> RoundOk(turns[k])
  }

  /** All draws in range, the enemy's being `randint(attack - 3, attack + 3)`. */
  predicate TurnsOk(turns: seq<Turn>, enemyAttack: int) {
    RoundsOk(turns) && forall k :: 0 <= k < |turns| ==> enemyAttack - 3 <= turns[k].enemyHit <= enemyAttack + 3
  }

  /** The two sides of a battle. */
  datatype Fighters = Fighters(hp: int, enemyHp: int, inventory: map<string, int>)

  /** The damage the enemy deals, ten less while the shield is up, never below zero. */
  function Damage(hit: int, shield: bool): (d: int)
    ensures shield ==> d == Max(0, hit - 10)
    ensures !shield ==> d == hit
  {
    if shield then Max(0, hit - 10) else hit
  }

  /** The enemy's answer: only while it is alive. The shield then drops. */
  function EnemyTurn(f: Fighters, shield: bool, hit: int): Fighters {
    if f.enemyHp > 0 then f.(hp := f.hp - Damage(hit, shield)) else f
  }

  /** The battle's actions; any other word is invalid. */
  datatype Act = AttackAct | DefendAct | ItemAct | InvalidAct

  /** `Prompt.ask("Action").lower().strip()`, read as an action. */
  function ParseAct(word: string): Act {
    if word == "attack" then AttackAct
    else if word == "defend" then DefendAct
    else if word == "item" then ItemAct
    else InvalidAct
  }

  /** One round: the player's action, then the enemy's turn; an invalid
      action skips the enemy's turn too. */
  function Round(f: Fighters, t: Turn): (r: Fighters)
    requires RoundOk(t)
    ensures r.enemyHp <= f.enemyHp
    ensures InventoryOk(f.inventory) ==> InventoryOk(r.inventory)
    ensures f.hp <= MaxHp ==> r.hp <= MaxHp
  {
    match ParseAct(t.action)
    case AttackAct =>
      EnemyTurn(f.(enemyHp := f.enemyHp - t.hit), false, t.enemyHit)
    case DefendAct =>
      EnemyTurn(f, true, t.enemyHit)
    case ItemAct => ItemRound(f, t.item, t.heal, t.enemyHit)
    case InvalidAct => f
  }

  /** The "item" action: the item used, then the enemy's turn, shielded if it was the shield. */
  function ItemRound(f: Fighters, item: string, heal: int, enemyHit: int): (r: Fighters)
    requires 20 <= heal <= 35 && 0 <= enemyHit
    ensures r.enemyHp == f.enemyHp
    ensures InventoryOk(f.inventory) ==> InventoryOk(r.inventory)
    ensures f.hp <= MaxHp ==> r.hp <= MaxHp
  {
    var u := UseItemOn(f.hp, f.inventory, item, heal);
    EnemyTurn(f.(hp := u.hp, inventory := u.inventory), u.used == Some("shield"), enemyHit)
  }

  /** An invalid action changes nothing; "defend" takes ten off the enemy's hit. */
  lemma RoundRules(f: Fighters, t: Turn)
    requires RoundOk(t) && f.enemyHp > 0
    ensures ParseAct(t.action) == InvalidAct ==> Round(f, t) == f
    ensures ParseAct(t.action) == DefendAct ==> Round(f, t) == f.(hp := f.hp - Max(0, t.enemyHit - 10))
    ensures ParseAct(t.action) == AttackAct && t.hit >= f.enemyHp ==> Round(f, t) == f.(enemyHp := f.enemyHp - t.hit)
    ensures ParseAct(t.action) == AttackAct && t.hit < f.enemyHp ==>
      Round(f, t) == Fighters(f.hp - t.enemyHit, f.enemyHp - t.hit, f.inventory)
  {
  }

  /** Using the shield item also takes ten off the enemy's hit. */
  lemma ShieldItemGuards(f: Fighters, t: Turn)
    requires RoundOk(t) && f.enemyHp > 0 && ParseAct(t.action) == ItemAct
    requires t.item == "shield" && Count(f.inventory, "shield") > 0
    ensures Round(f, t).hp == f.hp - Max(0, t.enemyHit - 10)
    ensures Count(Round(f, t).inventory, "shield") == Count(f.inventory, "shield") - 1
  {
    var u := UseItemOn(f.hp, f.inventory, t.item, t.heal);
    assert u.used == Some("shield");
  }

  /** The battle loop: rounds while both sides stand and turns remain. */
  function Fight(f: Fighters, turns: seq<Turn>): (r: Fighters)
    requires RoundsOk(turns)
    decreases |turns|
  {
    if f.hp <= 0 || f.enemyHp <= 0 || turns == [] then f
    else Fight(Round(f, turns[0]), turns[1..])
  }

  /** Fighting keeps the inventory free of empty entries and the hit points
      at most `max_hp`, and never heals the enemy. */
  lemma {:induction false} FightKeeps(f: Fighters, turns: seq<Turn>)
    requires RoundsOk(turns) && InventoryOk(f.inventory) && f.hp <= MaxHp
    ensures InventoryOk(Fight(f, turns).inventory) && Fight(f, turns).hp <= MaxHp
    ensures Fight(f, turns).enemyHp <= f.enemyHp
    decreases |turns|
  {
    if !(f.hp <= 0 || f.enemyHp <= 0 || turns == []) {
      FightKeeps(Round(f, turns[0]), turns[1..]);
    }
  }

  /** A battle can end with a win, a death, or with the typed turns used up. */
  datatype Outcome = Won | Slain | Unfinished

  function OutcomeOf(f: Fighters): Outcome {
    if f.hp <= 0 then Slain else if f.enemyHp <= 0 then Won else Unfinished
  }

  /** One pass of the loop of `battle`. */
  method PlayRound(player: Player, enemy: Enemy, t: Turn)
    requires RoundOk(t)
    modifies player, enemy
    ensures Fighters(player.hp, enemy.hp, player.inventory) == Round(old(Fighters(player.hp, enemy.hp, player.inventory)), t)
    ensures player.gold == old(player.gold)
  {
    var shield := false;
    match ParseAct(t.action) {
      case AttackAct =>
        enemy.hp := enemy.hp - t.hit;
      case DefendAct =>
        shield := true;
      case ItemAct =>
        var used := player.UseItem(t.item, t.heal);
        if used == Some("shield") {
          shield := true;
        }
      case InvalidAct =>
        return;
    }
    if enemy.hp > 0 {
      var damage := t.enemyHit;
      if shield {
        damage := Max(0, damage - 10);
      }
      player.hp := player.hp - damage;
    }
  }

  /** `battle`. */
  method Battle(player: Player, enemy: Enemy, turns: seq<Turn>) returns (outcome: Outcome)
    requires TurnsOk(turns, enemy.attackPower)
    modifies player, enemy
    ensures Fighters(player.hp, enemy.hp, player.inventory) == Fight(old(Fighters(player.hp, enemy.hp, player.inventory)), turns)
    ensures outcome == OutcomeOf(Fighters(player.hp, enemy.hp, player.inventory))
    ensures player.gold == old(player.gold) + (if outcome == Won then enemy.goldReward else 0)
  {
    var pending := turns;
    while enemy.hp > 0 && player.hp > 0 && pending != []
      invariant TurnsOk(pending, enemy.attackPower) && player.gold == old(player.gold)
      invariant Fight(Fighters(player.hp, enemy.hp, player.inventory), pending) ==
        Fight(old(Fighters(player.hp, enemy.hp, player.inventory)), turns)
      decreases |pending|
    {
      PlayRound(player, enemy, pending[0]);
      pending := pending[1..];
    }
    if player.hp <= 0 {
      outcome := Slain;
    } else if enemy.hp <= 0 {
      outcome := Won;
      player.gold := player.gold + enemy.goldReward;
    } else {
      outcome := Unfinished;
    }
  }

  // ---------------------------------------------------------------- events

  /** The riddle is solved when the answer contains "keyboard". */
  const Riddle := "keyboard"

  /** `"keyboard" in answer`. */
  function Solves(answer: string): (b: bool)
    ensures b <==> exists i: nat :: OccursAt(answer, Riddle, i)
  {
    Contains(answer, Riddle)
  }

  /** An enemy type of `event_enemy`: its name and the ranges of its draws. */
  datatype Kind = Kind(name: string, hpLow: int, hpHigh: int, attackLow: int, attackHigh: int, goldLow: int, goldHigh: int)

  const Kinds: seq<Kind> := [
    Kind("Goblin", 25, 35, 10, 15, 10, 20),
    Kind("Skeleton", 30, 40, 12, 18, 15, 25),
    Kind("Dark Knight", 35, 50, 15, 20, 20, 30)
  ]

  /** The enemy `event_enemy` picks, and its drawn statistics. */
  datatype Foe = Foe(kind: nat, hp: int, attack: int, gold: int)

  predicate FoeOk(f: Foe) {
    f.kind < |Kinds|
    && Kinds[f.kind].hpLow <= f.hp <= Kinds[f.kind].hpHigh
    && Kinds[f.kind].attackLow <= f.attack <= Kinds[f.kind].attackHigh
    && Kinds[f.kind].goldLow <= f.gold <= Kinds[f.kind].goldHigh
  }

  /** The boss of the boss room. */
  const BossName := "Dungeon Golem"
  const BossHp := 80
  const BossAttack := 25
  const BossGold := 100

  /** Everything one pass of `play_game` may read: the draws of the room's
      event, the answers typed during it, and the choice typed after it. */
  datatype Visit = Visit(trapDamage: int, answer: string, found: int, item: Option<string>,
                         foe: Foe, foeTurns: seq<Turn>, bossTurns: seq<Turn>, choice: string)

  predicate VisitOk(v: Visit) {
    && 15 <= v.trapDamage <= 30
    && 20 <= v.found <= 50
    && (v.item.Some? ==> v.item.value in {"potion", "shield"})
    && FoeOk(v.foe) && TurnsOk(v.foeTurns, v.foe.attack)
    && TurnsOk(v.bossTurns, BossAttack)
  }

  datatype Status = Playing | Escaped | Dead | OutOfInput

  /** The player's fields: hit points, inventory and gold. */
  datatype Stats = Stats(hp: int, inventory: map<string, int>, gold: int)

  /** No empty inventory entry, hp at most `max_hp`, no debt. */
  predicate StatsOk(p: Stats) {
    InventoryOk(p.inventory) && p.hp <= MaxHp && p.gold >= 0
  }

  /** What a room's event leaves: the player, the game's status, and
      whether a wrong riddle answer sends the player back. */
  datatype Aftermath = Aftermath(stats: Stats, status: Status, bounced: bool)

  /** A battle against an enemy of `foeHp` and `reward`: the fight's hp and
      inventory, the reward on a win, and the game ended by a loss. */
  function Battled(p: Stats, foeHp: int, reward: int, turns: seq<Turn>): (r: Aftermath)
    requires RoundsOk(turns) && reward >= 0
    ensures !r.bounced && r.stats.gold >= p.gold
    ensures StatsOk(p) ==> StatsOk(r.stats)
    ensures r.status != Escaped
  {
    var f := Fight(Fighters(p.hp, foeHp, p.inventory), turns);
    var outcome := OutcomeOf(f);
    var r := Aftermath(Stats(f.hp, f.inventory, p.gold + (if outcome == Won then reward else 0)),
                       match outcome case Slain => Dead case Unfinished => OutOfInput case Won => Playing,
                       false);
    assert StatsOk(p) ==> StatsOk(r.stats) by {
      if StatsOk(p) {
        FightKeeps(Fighters(p.hp, foeHp, p.inventory), turns);
      }
    }
    r
  }

  /** The event of a room, run on the player's stats with the visit's draws. */
  function EventOf(e: Event, p: Stats, v: Visit): (r: Aftermath)
    requires VisitOk(v)
    ensures r.bounced <==> e == PuzzleEvent && !Solves(v.answer)
    ensures r.status != Playing ==> e in {EnemyEvent, BossEvent}
    ensures r.status != Escaped && r.stats.gold >= p.gold
    ensures StatsOk(p) ==> StatsOk(r.stats)
  {
    match e
    case NoEvent => Aftermath(p, Playing, false)
    case TrapEvent => Aftermath(p.(hp := p.hp - v.trapDamage), Playing, false)
    case PuzzleEvent => Aftermath(p, Playing, !Solves(v.answer))
    case TreasureEvent =>
      var inventory := if v.item.Some? then Gain(p.inventory, v.item.value) else p.inventory;
      Aftermath(p.(gold := p.gold + v.found, inventory := inventory), Playing, false)
    case EnemyEvent => Battled(p, v.foe.hp, v.foe.gold, v.foeTurns)
    case BossEvent => Battled(p, BossHp, BossGold, v.bossTurns)
  }

  /** Where `play_game` stands between two passes of its loop. */
  datatype Snapshot = Snapshot(room: string, status: Status, stats: Stats)

  /** One pass of the loop: the event, then the bounce, the escape or the choice. */
  function Stepped(s: Snapshot, v: Visit): (r: Snapshot)
    requires s.room in Rooms() && VisitOk(v)
    ensures r.room in Rooms()
    ensures StatsOk(s.stats) ==> StatsOk(r.stats)
    ensures r.stats.gold >= s.stats.gold
    ensures r.status == Escaped <==> s.room == "exit"
  {
    var a := EventOf(Rooms()[s.room].event, s.stats, v);
    RoomsClosed();
    if a.status != Playing then Snapshot(s.room, a.status, a.stats)
    else if a.bounced then Snapshot("start", Playing, a.stats)
    else if s.room == "exit" then Snapshot(s.room, Escaped, a.stats)
    else Snapshot(Navigate(s.room, v.choice), Playing, a.stats)
  }

  predicate VisitsOk(visits: seq<Visit>) {
    forall k :: 0 <= k < |visits| ==> VisitOk(visits[k])
  }

  /** The loop over the visits typed: a pass per visit while the game goes on. */
  function Played(s: Snapshot, visits: seq<Visit>): (r: Snapshot)
    requires s.room in Rooms() && VisitsOk(visits)
    decreases |visits|
  {
    if visits == [] || s.status != Playing then s
    else Played(Stepped(s, visits[0]), visits[1..])
  }

  /** The game keeps the player's invariants, never loses gold, and stops
      only when it is over or the visits run out. */
  lemma {:induction false} PlayedKeeps(s: Snapshot, visits: seq<Visit>)
    requires s.room in Rooms() && VisitsOk(visits)
    ensures var r := Played(s, visits);
      && r.room in Rooms() && r.stats.gold >= s.stats.gold
      && (StatsOk(s.stats) ==> StatsOk(r.stats))
      && (r.status == Playing ==> s.status == Playing)
      && (s.status != Playing ==> r == s)
    decreases |visits|
  {
    if visits != [] && s.status == Playing {
      PlayedKeeps(Stepped(s, visits[0]), visits[1..]);
    }
  }

  /** Once escaped, dead or out of input, the game stays as it is; an escape
      happens only from the `exit` room. */
  lemma {:induction false} PlayedEscapes(s: Snapshot, visits: seq<Visit>)
    requires s.room in Rooms() && VisitsOk(visits) && s.status == Playing
    ensures Played(s, visits).status == Escaped ==> Played(s, visits).room == "exit"
    decreases |visits|
  {
    if visits != [] {
      var n := Stepped(s, visits[0]);
      if n.status == Playing {
        PlayedEscapes(n, visits[1..]);
      } else {
        PlayedKeeps(n, visits[1..]);
      }
    }
  }

  /** The state of `play_game`. */
  class Game {
    const player: Player
    var room: string
    var status: Status

    predicate Valid()
      reads this, player
    {
      room in Rooms() && StatsOk(PlayerStats())
    }

    function PlayerStats(): Stats
      reads player
    {
      Stats(player.hp, player.inventory, player.gold)
    }

    /** The game as `Stepped` and `Played` see it. */
    function Current(): Snapshot
      reads this, player
    {
      Snapshot(room, status, PlayerStats())
    }

    constructor()
      ensures Valid() && room == "start" && status == Playing
      ensures player.hp == MaxHp && player.gold == 0 && player.inventory == map["potion" := 2, "shield" := 1]
    {
      player := new Player();
      room := "start";
      status := Playing;
    }

    /** `event_trap`. */
    method Trap(damage: int)
      requires 15 <= damage <= 30
      modifies player
      ensures player.hp == old(player.hp) - damage
      ensures player.gold == old(player.gold) && player.inventory == old(player.inventory)
    {
      player.hp := player.hp - damage;
    }

    /** `event_healing`; no room runs it. */
    method Healing(amount: int)
      requires 15 <= amount <= 25
      modifies player
      ensures player.hp == Healed(old(player.hp), amount)
      ensures player.gold == old(player.gold) && player.inventory == old(player.inventory)
    {
      player.hp := Min(MaxHp, player.hp + amount);
    }

    /** `event_treasure`: the gold found and, maybe, one more item. */
    method Treasure(found: int, item: Option<string>)
      requires 20 <= found <= 50
      modifies player
      ensures player.gold == old(player.gold) + found && player.hp == old(player.hp)
      ensures player.inventory == (if item.Some? then Gain(old(player.inventory), item.value) else old(player.inventory))
    {
      player.gold := player.gold + found;
      if item.Some? {
        player.inventory := player.inventory[item.value := Count(player.inventory, item.value) + 1];
      }
    }

    /** `event_enemy` and the boss room's event: a battle whose loss ends the game. */
    method Encounter(enemy: Enemy, turns: seq<Turn>)
      requires Valid() && status == Playing && TurnsOk(turns, enemy.attackPower) && enemy.goldReward >= 0
      modifies player, enemy, this
      ensures Valid() && room == old(room)
      ensures var f := Fight(old(Fighters(player.hp, enemy.hp, player.inventory)), turns);
        && Fighters(player.hp, enemy.hp, player.inventory) == f
        && status == (match OutcomeOf(f) case Slain => Dead case Unfinished => OutOfInput case Won => Playing)
        && player.gold == old(player.gold) + (if OutcomeOf(f) == Won then enemy.goldReward else 0)
      ensures var a := Battled(old(PlayerStats()), old(enemy.hp), enemy.goldReward, turns);
        PlayerStats() == a.stats && status == a.status
    {
      FightKeeps(Fighters(player.hp, enemy.hp, player.inventory), turns);
      var outcome := Battle(player, enemy, turns);
      if outcome == Slain {
        status := Dead;
      } else if outcome == Unfinished {
        status := OutOfInput;
      }
    }

    /** The room's event; the result says whether the riddle sent the player back. */
    method RunEvent(v: Visit) returns (bounced: bool)
      requires Valid() && status == Playing && VisitOk(v)
      modifies this, player
      ensures Valid() && room == old(room)
      ensures bounced <==> Rooms()[room].event == PuzzleEvent && !Solves(v.answer)
      ensures status != Playing ==> Rooms()[room].event in {EnemyEvent, BossEvent}
      ensures room == "exit" ==> status == Playing && !bounced
      ensures status != Escaped
      ensures var a := EventOf(Rooms()[room].event, old(PlayerStats()), v);
        PlayerStats() == a.stats && status == a.status && bounced == a.bounced
    {
      RoomsClosed();
      var event := Rooms()[room].event;
      bounced := false;
      match event {
        case NoEvent =>
        case TrapEvent =>
          Trap(v.trapDamage);
        case PuzzleEvent =>
          bounced := !Solves(v.answer);
        case TreasureEvent =>
          Treasure(v.found, v.item);
        case EnemyEvent =>
          var kind := Kinds[v.foe.kind];
          var enemy := new Enemy(kind.name, v.foe.hp, v.foe.attack, v.foe.gold);
          Encounter(enemy, v.foeTurns);
        case BossEvent =>
          var enemy := new Enemy(BossName, BossHp, BossAttack, BossGold);
          Encounter(enemy, v.bossTurns);
      }
    }

    /** One pass of the `play_game` loop. */
    method Step(v: Visit)
      requires Valid() && status == Playing && VisitOk(v)
      modifies this, player
      ensures Valid()
      ensures status == Playing ==>
        room == (if Rooms()[old(room)].event == PuzzleEvent && !Solves(v.answer) then "start"
                 else Navigate(old(room), v.choice))
      ensures status == Escaped <==> old(room) == "exit"
      ensures status !in {Playing, Escaped} ==> Rooms()[old(room)].event in {EnemyEvent, BossEvent}
      ensures Current() == Stepped(old(Current()), v)
    {
      var bounced := RunEvent(v);
      if status != Playing {
        return;
      }
      if bounced {
        room := "start";
        return;
      }
      if room == "exit" {
        status := Escaped;
        return;
      }
      room := Navigate(room, v.choice);
    }

    /** `play_game` over the visits typed, until the game ends or they run out. */
    method Play(visits: seq<Visit>) returns (steps: nat)
      requires Valid() && status == Playing
      requires VisitsOk(visits)
      modifies this, player
      ensures Valid() && steps <= |visits|
      ensures status == Playing ==> steps == |visits|
      ensures Current() == Played(old(Current()), visits)
    {
      steps := 0;
      while steps < |visits| && status == Playing
        invariant steps <= |visits| && Valid()
        invariant Played(Current(), visits[steps..]) == Played(old(Current()), visits)
      {
        assert visits[steps..][1..] == visits[steps + 1..];
        Step(visits[steps]);
        steps := steps + 1;
      }
    }
  }
}
