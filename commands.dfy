/** The command record that the relay queues, and the commands each convenience
    handler of main.py builds.  A command the handlers build without a "player" key
    and one submitted with `player: None` are both the target `None` here. */
module Commands {
  import opened Wrappers
  import Text

  /** `player` is the optional target agent, `command` the verb, `args` its positional
      arguments. */
  datatype Command = Command(player: Option<string>, command: string, args: seq<string>)

  /** The body of the inventory endpoint: the player to change, "add" or "remove", and
      the item. */
  datatype InventoryChange = InventoryChange(player: string, action: string, item: string)

  /** The player a command acts on, read from where each verb carries it: the target
      of an inventory edit, the first argument of "attribute", "give" and the ability
      verbs, and the second argument (after the sub-verb) of "flame". */
  function AddressedPlayer(c: Command): Option<string>
  {
    if c.command == "inventory_edit" then c.player
    else if c.command in {"attribute", "give", "setabilitydamage", "setabilityduration"} && |c.args| >= 1 then Some(c.args[0])
    else if c.command == "flame" && |c.args| >= 2 then Some(c.args[1])
    else None
  }

  /** The inventory endpoint's membership test against its list of two actions. */
  predicate IsInventoryAction(action: string): (ok: bool)
    ensures ok <==> action == "add" || action == "remove"
  {
    action in ["add", "remove"]
  }

  /** The one command built with a target: it names the player both as target and as
      the one it acts on, and passes action and item through in that order. */
  function InventoryEdit(change: InventoryChange): (r: Command)
    ensures r.player == Some(change.player) && AddressedPlayer(r) == Some(change.player)
    ensures r.command == "inventory_edit" && r.args == [change.action, change.item]
  {
    Command(Some(change.player), "inventory_edit", [change.action, change.item])
  }

  const AttackDamage := "minecraft:generic.attack_damage"

  /** Sets a player's base attack damage to the given value: an untargeted
      "attribute" command on the player, five arguments, the value last. */
  function SetAttackDamage(player: string, value: string): (r: Command)
    ensures r.player == None && r.command == "attribute" && AddressedPlayer(r) == Some(player)
    ensures |r.args| == 5 && r.args[1] == AttackDamage && r.args[2..4] == ["base", "set"] && r.args[4] == value
  {
    Command(None, "attribute", [player, AttackDamage, "base", "set", value])
  }

  function Sabotage(player: string): (r: Command)
    ensures AddressedPlayer(r) == Some(player) && |r.args| == 5 && r.args[4] == "0.5"
  {
    SetAttackDamage(player, "0.5")
  }

  function Unsabotage(player: string): (r: Command)
    ensures AddressedPlayer(r) == Some(player) && |r.args| == 5 && r.args[4] == "1.0"
  {
    SetAttackDamage(player, "1.0")
  }

  /** Sabotage and unsabotage build the same five-argument attribute command and differ
      only in the value they set: "0.5" against the normal "1.0". */
  lemma SabotageAndUnsabotageDifferInValue(player: string)
    ensures Sabotage(player).player == Unsabotage(player).player == None
    ensures Sabotage(player).command == Unsabotage(player).command == "attribute"
    ensures |Sabotage(player).args| == |Unsabotage(player).args| == 5
    ensures Sabotage(player).args[..4] == Unsabotage(player).args[..4]
              == [player, "minecraft:generic.attack_damage", "base", "set"]
    ensures Sabotage(player).args[4] == "0.5" && Unsabotage(player).args[4] == "1.0"
  {
  }

  /** One "give" of `count` of `item` to the player. */
  function Give(player: string, item: string, count: string): (r: Command)
    ensures r.player == None && r.command == "give" && AddressedPlayer(r) == Some(player)
    ensures r.args[1..] == [item, count]
  {
    Command(None, "give", [player, item, count])
  }

  /** The items of the regear kit, in the order they are queued, with their counts. */
  const RegearKit: seq<(string, string)> := [
    ("diamond_helmet{Enchantments:[{id:\"minecraft:protection\",lvl:3},{id:\"minecraft:unbreaking\",lvl:3},{id:\"minecraft:respiration\",lvl:3},{id:\"minecraft:aqua_affinity\",lvl:1}]}", "1"),
    ("diamond_chestplate{Enchantments:[{id:\"minecraft:protection\",lvl:3},{id:\"minecraft:unbreaking\",lvl:3}]}", "1"),
    ("diamond_leggings{Enchantments:[{id:\"minecraft:protection\",lvl:3},{id:\"minecraft:unbreaking\",lvl:3}]}", "1"),
    ("diamond_boots{Enchantments:[{id:\"minecraft:protection\",lvl:3},{id:\"minecraft:unbreaking\",lvl:3},{id:\"minecraft:feather_falling\",lvl:4},{id:\"minecraft:depth_strider\",lvl:3}]}", "1"),
    ("bow{Enchantments:[{id:\"minecraft:power\",lvl:5},{id:\"minecraft:punch\",lvl:2},{id:\"minecraft:flame\",lvl:1},{id:\"minecraft:infinity\",lvl:1},{id:\"minecraft:unbreaking\",lvl:3}]}", "1"),
    ("crossbow{Enchantments:[{id:\"minecraft:quick_charge\",lvl:3},{id:\"minecraft:multishot\",lvl:1},{id:\"minecraft:piercing\",lvl:4},{id:\"minecraft:unbreaking\",lvl:3}]}", "1"),
    ("diamond_pickaxe{Enchantments:[{id:\"minecraft:efficiency\",lvl:5},{id:\"minecraft:unbreaking\",lvl:3},{id:\"minecraft:fortune\",lvl:3}]}", "1"),
    ("diamond_axe{Enchantments:[{id:\"minecraft:efficiency\",lvl:5},{id:\"minecraft:unbreaking\",lvl:3},{id:\"minecraft:fortune\",lvl:3}]}", "1"),
    ("diamond_shovel{Enchantments:[{id:\"minecraft:efficiency\",lvl:5},{id:\"minecraft:unbreaking\",lvl:3},{id:\"minecraft:fortune\",lvl:3}]}", "1"),
    ("diamond_hoe{Enchantments:[{id:\"minecraft:efficiency\",lvl:5},{id:\"minecraft:unbreaking\",lvl:3},{id:\"minecraft:fortune\",lvl:3}]}", "1"),
    ("trident{Enchantments:[{id:\"minecraft:riptide\",lvl:3},{id:\"minecraft:mending\",lvl:1},{id:\"minecraft:unbreaking\",lvl:3}]}", "1"),
    ("enchanted_golden_apple", "4"),
    ("wind_charge", "64"),
    ("wind_charge", "64"),
    ("arrow", "64")
  ]

  /** The regear batch for one player: one "give" per kit entry, in kit order, every
      one naming the player as its first argument. */
  function RegearBatch(player: string): (r: seq<Command>)
    ensures |r| == 15
    ensures forall i :: 0 <= i < |r| ==>
              r[i].player == None && r[i].command == "give" && |r[i].args| == 3 && r[i].args[0] == player
    ensures forall i :: 0 <= i < |r| ==> AddressedPlayer(r[i]) == Some(player)
  {
    seq(|RegearKit|, i requires 0 <= i < |RegearKit| => Give(player, RegearKit[i].0, RegearKit[i].1))
  }

  /** Every command of the regear batch gives the same player an item of the kit. */
  lemma RegearBatchGivesKit(player: string, i: int)
    requires 0 <= i < 15
    ensures RegearBatch(player)[i].args == [player, RegearKit[i].0, RegearKit[i].1]
  {
  }

  /** The flame-type argument as sent: upper case, no lower-case letter left. */
  ghost predicate NoLowerAscii(s: string)
  {
    forall i :: 0 <= i < |s| ==> !Text.IsLowerAscii(s[i])
  }

  ghost predicate NoUpperAscii(s: string)
  {
    forall i :: 0 <= i < |s| ==> !Text.IsUpperAscii(s[i])
  }

  /** Sets the damage of a player's flame ability: the flame type upper-cased and the
      damage as a numeral the agent reads back exactly. */
  function AbilityDamage(player: string, flameType: string, damage: int): (r: Command)
    ensures r.player == None && r.command == "setabilitydamage" && AddressedPlayer(r) == Some(player)
    ensures |r.args| == 3 && |r.args[1]| == |flameType| && NoLowerAscii(r.args[1])
    ensures Text.ParseDecimal(r.args[2]) == Some(damage)
  {
    Text.UpperNormalises(flameType);
    Text.DecimalRoundTrip(damage);
    Command(None, "setabilitydamage", [player, Text.Upper(flameType), Text.IntToDecimal(damage)])
  }

  /** Sets the duration of a player's flame ability, in the same shape. */
  function AbilityDuration(player: string, flameType: string, duration: int): (r: Command)
    ensures r.player == None && r.command == "setabilityduration" && AddressedPlayer(r) == Some(player)
    ensures |r.args| == 3 && |r.args[1]| == |flameType| && NoLowerAscii(r.args[1])
    ensures Text.ParseDecimal(r.args[2]) == Some(duration)
  {
    Text.UpperNormalises(flameType);
    Text.DecimalRoundTrip(duration);
    Command(None, "setabilityduration", [player, Text.Upper(flameType), Text.IntToDecimal(duration)])
  }

  /** Sets a player's flame: sub-verb "set", then the player, then the flame type in
      upper case. */
  function FlameSet(player: string, flameType: string): (r: Command)
    ensures r.player == None && r.command == "flame" && AddressedPlayer(r) == Some(player)
    ensures |r.args| == 3 && r.args[0] == "set" && |r.args[2]| == |flameType| && NoLowerAscii(r.args[2])
  {
    Text.UpperNormalises(flameType);
    Command(None, "flame", ["set", player, Text.Upper(flameType)])
  }

  function FlameUpgrade(player: string): (r: Command)
    ensures r.player == None && r.command == "flame" && AddressedPlayer(r) == Some(player)
    ensures r.args == ["upgrade", player]
  {
    Command(None, "flame", ["upgrade", player])
  }

  function FlameDowngrade(player: string): (r: Command)
    ensures r.player == None && r.command == "flame" && AddressedPlayer(r) == Some(player)
    ensures r.args == ["unupgrade", player]
  {
    Command(None, "flame", ["unupgrade", player])
  }

  /** Gives a player a flame item: sub-verb "give", then the player, then the item type
      in lower case. */
  function FlameGive(player: string, itemType: string): (r: Command)
    ensures r.player == None && r.command == "flame" && AddressedPlayer(r) == Some(player)
    ensures |r.args| == 3 && r.args[0] == "give" && |r.args[2]| == |itemType| && NoUpperAscii(r.args[2])
  {
    Text.LowerNormalises(itemType);
    Command(None, "flame", ["give", player, Text.Lower(itemType)])
  }

  /** An ability command carries the flame type in upper case and a numeral from which
      the agent reads back exactly the requested amount. */
  lemma AbilityArgsReadable(player: string, flameType: string, amount: int)
    ensures AbilityDamage(player, flameType, amount).args[0] == player
    ensures Text.ParseDecimal(AbilityDamage(player, flameType, amount).args[2]) == Some(amount)
    ensures forall i :: 0 <= i < |flameType| ==> !Text.IsLowerAscii(AbilityDamage(player, flameType, amount).args[1][i])
    ensures AbilityDuration(player, flameType, amount).args[0] == player
    ensures Text.ParseDecimal(AbilityDuration(player, flameType, amount).args[2]) == Some(amount)
    ensures forall i :: 0 <= i < |flameType| ==> !Text.IsLowerAscii(AbilityDuration(player, flameType, amount).args[1][i])
  {
    Text.DecimalRoundTrip(amount);
  }

  /** The flame type is case-insensitive: two spellings with the same upper case give
      the same command, and an already upper-cased spelling gives the same command as
      the original. */
  lemma FlameTypeCaseInsensitive(player: string, f: string, g: string, amount: int)
    requires Text.Upper(f) == Text.Upper(g)
    ensures AbilityDamage(player, f, amount) == AbilityDamage(player, g, amount)
    ensures AbilityDuration(player, f, amount) == AbilityDuration(player, g, amount)
    ensures FlameSet(player, f) == FlameSet(player, g)
    ensures FlameSet(player, Text.Upper(f)) == FlameSet(player, f)
  {
    Text.UpperNormalises(f);
  }

  /** The item type of a flame give is case-insensitive in the same way. */
  lemma FlameItemCaseInsensitive(player: string, t: string)
    ensures FlameGive(player, Text.Lower(t)) == FlameGive(player, t)
    ensures FlameGive(player, Text.Upper(t)) == FlameGive(player, t)
  {
    Text.LowerNormalises(t);
    Text.LowerOfUpper(t);
  }

  /** The four "flame" commands are told apart by their first argument, the sub-verb. */
  lemma FlameSubVerbsDistinct(p: string, q: string, f: string, t: string)
    ensures FlameSet(p, f).args[0] == "set" && FlameUpgrade(p).args[0] == "upgrade"
    ensures FlameDowngrade(p).args[0] == "unupgrade" && FlameGive(p, t).args[0] == "give"
    ensures FlameUpgrade(p) != FlameDowngrade(q)
  {
  }
}
