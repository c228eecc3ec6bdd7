# Command relay: dispatch queue and player-state store

This project models the core of a small HTTP relay. A controller uses the relay to
drive game-server plugins that cannot accept incoming connections. The relay keeps
two pieces of in-memory state:

- **The command queue.** It is one global FIFO list of commands. A command has an
  optional target player, a verb and positional string arguments. Every submit
  handler appends at the tail. A plugin's poll removes and returns the head, or
  answers `None` when the queue is empty.
- **The player-data store.** It maps a player name to the last snapshot that player's
  plugin published. A publish replaces the entry for the snapshot's name wholesale.
  A read returns the whole map.

The convenience handlers build fixed commands and append them to the queue:

- an inventory edit, guarded by a check on the action;
- attack-damage attribute commands (sabotage and unsabotage);
- a batch of 15 "give" commands (regear);
- flame commands, which upper-case the flame type or lower-case the item type and
  render the amount as a decimal numeral.

The modules follow the structure of the program:

- `Wrappers` (`wrappers.dfy`): the `Option` type used for Python's `None`.
- `Snapshot` (`snapshot.dfy`): the published snapshot record and its nested parts.
  Every optional field is an `Option` holding the value after validation. Validation
  fills in a default for an omitted field. So absence stays visible only in the fields
  whose default is `None`: armor, offhand, status, world, heldItem, customModelData
  and slot. An omitted list arrives as `[]`, and an omitted current action as "idle".
- `Text` (`text.dfy`): ASCII upper and lower case, `str(n)` for integers, and a
  reading of decimal numerals that undoes it.
- `Commands` (`commands.dfy`): the `Command` record and the command each
  convenience handler builds, with lemmas about the argument shapes.
- `Dispatch` (`dispatch.dfy`): the queue as a value. It defines one poll, and traces of
  submissions and polls. The lemmas prove FIFO order, exactly-once hand-out with no
  loss, and that polling an empty queue is harmless.
- `Store` (`store.dfy`): the store as a value, with publish and lookup. The lemmas
  prove last-write-wins, that other keys are untouched, read-back and commutation.
- `Relay` (`relay.dfy`): the class `Server`.
  - It has the fields `commandQueue: seq<Command>` and `playerData: map<string, PlayerInfo>`.
  - It has one method per handler. Each method states the whole new state in terms of
    the old one.
  - Ghost histories `submitted` and `delivered` back the object invariant
    `submitted == delivered + commandQueue`. That invariant means no command is lost or
    handed out twice. The invariant also requires every store entry to be filed under
    its own snapshot's name.
  - Three client methods run the usage scenarios against a fresh server.

Two details of the code matter for the model:

- The code puts no lock on the command queue. Only the store is locked. The model
  treats every handler as one atomic step either way.
- `get_all_player_info` returns the live dictionary, which is serialised after the lock
  is released. The model returns the map value at the moment of the read.

## Model

| member | source | states |
|---|---|---|
| Relay.Server.constructor | main.py:20-24 | the relay starts with an empty queue and an empty store |
| Relay.Server.Enqueue | main.py:143 | the command goes at the tail; the earlier elements and the store are unchanged |
| Relay.Server.ReceiveCommand | main.py:140-144 | exactly the submitted command is appended (an omitted player stays `None`); the reply echoes the stored command; the store is unchanged |
| Relay.Server.GetNextCommand | main.py:146-150 | on a non-empty queue it returns the head and leaves the tail; on an empty queue it returns `None` and leaves the queue empty; the handed-out command moves into the delivered history |
| Relay.Server.UpdatePlayerInfo | main.py:159-164 | the store becomes `Publish(old store, info)`; the queue is unchanged; entries stay filed under their own names |
| Relay.Server.GetAllPlayerInfo | main.py:167-170 | returns the current map and changes nothing; each entry is filed under its own name |
| Relay.Server.ChangeInventory | main.py:173-184 | an action other than "add" or "remove" gives a 400 "Invalid action" and leaves the queue unchanged; otherwise exactly `{player, "inventory_edit", [action, item]}` is appended and echoed |
| Relay.Server.SabotagePlayer | main.py:187-194 | appends exactly the attribute command that sets the base attack damage to "0.5" |
| Relay.Server.UnsabotagePlayer | main.py:197-204 | appends exactly the attribute command that sets the base attack damage to "1.0" |
| Relay.Server.RegearPlayer | main.py:207-291 | the loop appends the 15-command regear batch in kit order and reports 15 items given |
| Relay.Server.SetPlayerAbilityDamage | main.py:296-303 | appends one "setabilitydamage" command carrying the upper-cased flame type and `str(damage)`; echoes the parameters as given |
| Relay.Server.SetPlayerAbilityDuration | main.py:306-313 | appends one "setabilityduration" command carrying the upper-cased flame type and `str(duration)` |
| Relay.Server.SetPlayerFlame | main.py:315-322 | appends one `flame set` command carrying the upper-cased flame type |
| Relay.Server.UpgradePlayerFlame | main.py:324-331 | appends one "flame" command with sub-verb "upgrade" |
| Relay.Server.DowngradePlayerFlame | main.py:333-340 | appends one "flame" command with sub-verb "unupgrade" |
| Relay.Server.GiveFlameItem | main.py:343-350 | appends one `flame give` command carrying the lower-cased item type |
| Relay.SubmitThenDrain | main.py:140-150 | after submitting any commands to a fresh relay, polls return every one in submission order and then `None` |
| Relay.SubmitPollPoll | main.py:140-150 | a command for "Alice" is returned exactly by the next poll, and the poll after that returns `None` |
| Relay.PublishPublishRead | main.py:159-170 | after two publishes for one name, a read holds only that name and returns the second snapshot in full; as a corollary, absent armor reads back absent |
| Dispatch.Poll | main.py:146-150 | a poll returns `None` exactly when the queue is empty; what it hands out followed by what is left is the old queue |
| Dispatch.RunConserves | main.py:140-150 | over any trace of submits and polls, what the polls hand out followed by what is left is the starting queue followed by every submission: nothing lost, duplicated or invented |
| Dispatch.DeliveredInSubmissionOrder | main.py:140-150 | the polls hand out a prefix of the submissions, in order, whatever their targets (one global FIFO) |
| Dispatch.RunConcat | main.py:140-150 | running two traces one after the other is running their concatenation |
| Dispatch.RunSubmits | main.py:143 | submissions append at the tail and answer nothing |
| Dispatch.PollsOnEmpty | main.py:148-150 | any number of polls on an empty queue answer `None` each time and leave it empty |
| Dispatch.PollsDrain | main.py:146-150 | polling a queue `length + k` times hands out its elements head first, then `k` times `None` |
| Dispatch.FifoAfterSubmits | main.py:140-150 | submitting `xs` and then polling past the end hands out the old queue, then `xs` in order, then `None` |
| Dispatch.FifoExample | main.py:140-150 | enqueue A, B, C; four polls yield A, B, C, `None` |
| Store.Publish | main.py:163 | after a publish the key set gains the snapshot's name, that name maps to the new snapshot, and every other key keeps its value |
| Store.Lookup | main.py:167-170 | a name that was never published is absent; a present name yields its entry |
| Store.PublishKeepsKeys | main.py:163 | a publish keeps every entry filed under its own name |
| Store.ReadBack | main.py:159-170 | reading back a published snapshot gives it exactly; as a corollary, armor published absent reads back absent |
| Store.PublishIsolated | main.py:163 | a publish leaves every other name's entry, present or absent, unchanged |
| Store.LastWriteWins | main.py:163 | a second publish for the same name discards the first entirely |
| Store.PublishesCommute | main.py:163 | publishes for different names can be applied in either order |
| Store.PublishAllLastWins | main.py:159-164 | after any sequence of publishes, each name holds the last snapshot published for it, or its old entry if none was published |
| Store.LastIndexOf | main.py:163 | the position of the last snapshot for a name: it has that name and no later one does |
| Text.Upper | main.py:300 | `upper()` keeps the length and maps each character to its ASCII upper case |
| Text.Lower | main.py:347 | `lower()` keeps the length and maps each character to its ASCII lower case |
| Text.UpperNormalises | main.py:300 | an upper-cased string has no lower-case letter and is its own upper case |
| Text.LowerNormalises | main.py:347 | a lower-cased string has no capital letter and is its own lower case |
| Text.LowerOfUpper | main.py:347 | lower-casing an upper-cased string gives the lower case of the original |
| Text.NatToDecimal | main.py:300 | `str(n)` for `n >= 0` is a non-empty string of digits with no leading zero except "0" |
| Text.IntToDecimal | main.py:300 | `str(n)` starts with a minus sign exactly when `n < 0`, followed by digits |
| Text.NatDecimalRoundTrip | main.py:300 | the digits of `str(n)` have the value `n` |
| Text.DecimalRoundTrip | main.py:300 | reading back `str(n)` gives `n` |
| Text.DecimalInjective | main.py:310 | different integers render as different numerals |
| Commands.IsInventoryAction | main.py:175 | an action is accepted exactly when it is "add" or "remove" |
| Commands.InventoryEdit | main.py:178-182 | the edit is targeted at the player, acts on that player, and carries the action then the item |
| Commands.SetAttackDamage | main.py:189-192 | an untargeted "attribute" command on the player with five arguments: the attack-damage attribute, "base", "set", and the value last |
| Commands.Sabotage | main.py:189-192 | the sabotage command acts on the player and sets the value "0.5" as its fifth and last argument |
| Commands.Unsabotage | main.py:199-202 | the unsabotage command acts on the player and sets the value "1.0" as its fifth and last argument |
| Commands.SabotageAndUnsabotageDifferInValue | main.py:187-204 | the sabotage and unsabotage commands agree on target, verb, length (five) and the first four arguments, and set "0.5" against "1.0" |
| Commands.Give | main.py:212-284 | an untargeted "give" command on the player, then the item and its count |
| Commands.AbilityDamage | main.py:298-301 | an untargeted "setabilitydamage" command on the player; the flame type has the original's length and no lower-case letter; the numeral reads back as the damage |
| Commands.AbilityDuration | main.py:308-311 | the same for "setabilityduration", with the numeral reading back as the duration |
| Commands.FlameSet | main.py:317-320 | an untargeted "flame" command with sub-verb "set" on the player, the flame type with no lower-case letter |
| Commands.FlameUpgrade | main.py:326-329 | an untargeted "flame" command with exactly the arguments "upgrade" and the player |
| Commands.FlameDowngrade | main.py:335-338 | an untargeted "flame" command with exactly the arguments "unupgrade" and the player |
| Commands.FlameGive | main.py:345-348 | an untargeted "flame" command with sub-verb "give" on the player, the item type with no capital letter |
| Commands.RegearBatch | main.py:210-285 | the batch has 15 commands, all "give", untargeted, with three arguments, the first being the player, so every one acts on that player |
| Commands.RegearBatchGivesKit | main.py:210-285 | command `i` of the batch gives the player kit entry `i` with its count |
| Commands.AbilityArgsReadable | main.py:296-313 | both ability commands (damage and duration) name the player first, carry the flame type with no lower-case letter, and carry a numeral that reads back as the requested amount |
| Commands.FlameTypeCaseInsensitive | main.py:296-322 | flame types that agree up to case give identical commands |
| Commands.FlameItemCaseInsensitive | main.py:343-350 | item types that agree up to case give identical flame give commands |
| Commands.FlameSubVerbsDistinct | main.py:315-350 | the flame commands are told apart by their sub-verb: set, upgrade, unupgrade and give |

## Left out

- HTTP routing, CORS, `JSONResponse` and `uvicorn.run` are not modelled (main.py:9-18, main.py:353-354). They are transport and process lifecycle.
- The keep-alive endpoint at main.py:153-155 is not modelled. It touches no state.
- Locking and concurrency are not modelled. This covers `player_data_lock`, the `with` blocks and the interleaving of async handlers. Each handler is one atomic sequential step.
- Pydantic validation and defaulting are not modelled: required-field checks, type coercion, filling optional fields with their defaults, and `.dict()`. A snapshot or command reaches the model already validated. The rejection of a malformed snapshot therefore happens before the store is touched, and it is not modelled.
- Floats are stored as `real` values, verbatim. Binary floating-point rounding, NaN and infinity are not modelled. The relay never computes with these values.
- The log line at main.py:142 is not modelled. It is output only.
- Dictionary shapes are not modelled. The convenience handlers build dictionaries without a "player" key, while `cmd.dict()` stores `player: None`. Both are target `None` here.
- Text.Upper: models `str.upper()` on ASCII letters only, because Python's full Unicode case mapping (which can change a string's length) is not modelled.
- Text.Lower: models `str.lower()` on ASCII letters only, for the same reason.
- Relay.Server.GetAllPlayerInfo: returns the map as a value. The source hands out its live dictionary, which later publishes would change. Aliasing is not modelled.
- The parsing of the `damage` and `duration` path parameters into integers is not modelled. It is done by the web framework.
