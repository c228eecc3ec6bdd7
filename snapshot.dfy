/** The player-state snapshot that a plugin publishes (the pydantic models of main.py).
    Every `Optional[...]` field of the source is an `Option` here, holding the value
    after validation.  Validation fills a default in for an omitted field, so absence
    survives only in the fields whose default is `None` (armor, offhand, status, world,
    heldItem, customModelData, slot); an omitted list, name, count or label arrives as
    its default (`[]`, `""`, `0`, "idle", "unknown", ...).  Floats are kept
    as `real` values that the relay stores and returns verbatim; it never computes with
    them.  JSON field names that are Dafny keywords (`type`) are spelled `kind`. */
module Snapshot {
  import opened Wrappers

  datatype Coords = Coords(x: real, y: real, z: real, world: string)

  datatype Enchantment = Enchantment(kind: string, level: int)

  datatype AttributeModifier =
    AttributeModifier(attribute: string, name: string, amount: real, operation: string, slot: Option<string>)

  /** The open-ended `nbtTags` payload: an arbitrary JSON value. */
  datatype Tag =
    | TagNull
    | TagBool(b: bool)
    | TagNumber(n: real)
    | TagString(s: string)
    | TagList(items: seq<Tag>)
    | TagMap(entries: map<string, Tag>)

  datatype Item = Item(
    material: string,
    amount: int,
    displayName: Option<string>,
    damage: Option<int>,
    maxDurability: Option<int>,
    durabilityPercentage: Option<real>,
    enchantments: Option<seq<Enchantment>>,
    lore: Option<seq<string>>,
    customModelData: Option<int>,
    attributeModifiers: Option<seq<AttributeModifier>>,
    itemFlags: Option<seq<string>>,
    nbtTags: Option<map<string, Tag>>)

  datatype Armor = Armor(helmet: Option<Item>, chestplate: Option<Item>, leggings: Option<Item>, boots: Option<Item>)

  datatype PotionEffect = PotionEffect(
    kind: string,
    amplifier: int,
    duration: int,
    durationSeconds: real,
    isAmbient: bool,
    hasParticles: bool,
    hasIcon: bool,
    source: Option<string>)

  datatype Entity = Entity(name: string, kind: string, distance: real, location: Coords)

  datatype Status = Status(
    health: real,
    maxHealth: real,
    absorption: Option<real>,
    foodLevel: int,
    saturation: real,
    exhaustion: real,
    level: int,
    exp: real,
    totalExp: int,
    gameMode: string,
    isOp: bool,
    isFlying: bool,
    allowFlight: bool,
    isSneaking: bool,
    isSprinting: bool,
    isSwimming: bool,
    isGliding: bool,
    isBlocking: bool,
    effects: seq<PotionEffect>)

  datatype World = World(
    name: string,
    weather: string,
    isRaining: bool,
    isThundering: bool,
    temperature: real,
    humidity: real,
    time: int,
    timeOfDay: string)

  /** One player's snapshot; `name` is the key under which the store keeps it. */
  datatype PlayerInfo = PlayerInfo(
    name: string,
    coords: Coords,
    inventory: Option<seq<Item>>,
    armor: Option<Armor>,
    offhand: Option<Item>,
    enderChest: Option<seq<Item>>,
    status: Option<Status>,
    world: Option<World>,
    nearbyEntities: Option<seq<Entity>>,
    currentAction: Option<string>,
    heldItem: Option<Item>)
}
