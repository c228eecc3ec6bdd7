/** The relay of main.py: the global command queue and player-data store as the two
    fields of one object, and each HTTP handler as a method on it.  Each handler runs as
    one atomic step; the ghost fields record every command submitted and every command
    handed out, so the object invariant states that nothing is lost or duplicated. */
module Relay {
  import opened Wrappers
  import opened Snapshot
  import opened Commands
  import Dispatch
  import Store

  /** The bodies the handlers answer with; `status` is the handler's status word where
      one constructor serves several handlers. */
  datatype Reply =
    | Accepted(queued: Command)                        // status "ok", echoing the command
    | Polled(next: Option<Command>)                    // the head of the queue, or null
    | Updated                                          // status "updated"
    | AllPlayers(players: Store.Players)               // the whole store
    | InventoryQueued(queuedEdit: Command)             // status "queued", echoing the edit
    | BadRequest(error: string)                        // HTTP status 400
    | PlayerAck(status: string, player: string)
    | Regeared(player: string, itemsGiven: nat)        // status "regeared"
    | AbilityAck(status: string, player: string, flame: string, amount: int)
    | FlameAck(player: string, flame: string)          // status "flame_set"
    | ItemGiven(player: string, item: string)          // status "item_given"

  class Server {
    var commandQueue: seq<Command>
    var playerData: Store.Players

    /** Every command ever queued, and every command ever handed out by a poll. */
    ghost var submitted: seq<Command>
    ghost var delivered: seq<Command>

    ghost predicate Valid()
      reads this
    {
      submitted == delivered + commandQueue && Store.KeyedByName(playerData)
    }

    constructor ()
      ensures Valid()
      ensures commandQueue == [] && playerData == map[]
      ensures submitted == [] && delivered == []
    {
      commandQueue := [];
      playerData := map[];
      submitted := [];
      delivered := [];
    }

    /** `command_queue.append(cmd)`. */
    method Enqueue(cmd: Command)
      requires Valid()
      modifies this
      ensures Valid()
      ensures commandQueue == old(commandQueue) + [cmd]
      ensures submitted == old(submitted) + [cmd] && delivered == old(delivered)
      ensures playerData == old(playerData)
    {
      commandQueue := commandQueue + [cmd];
      submitted := submitted + [cmd];
    }

    /** `receive_command`: queue the submitted command and echo it back. */
    method ReceiveCommand(cmd: Command) returns (reply: Reply)
      requires Valid()
      modifies this
      ensures Valid()
      ensures commandQueue == old(commandQueue) + [cmd]
      ensures submitted == old(submitted) + [cmd] && delivered == old(delivered)
      ensures playerData == old(playerData)
      ensures reply == Accepted(commandQueue[|commandQueue| - 1])
      ensures reply.queued.player == cmd.player
    {
      Enqueue(cmd);
      reply := Accepted(cmd);
    }

    /** `get_next_command`: hand out the head of the queue, or `None` when it is empty. */
    method GetNextCommand() returns (reply: Reply)
      requires Valid()
      modifies this
      ensures Valid()
      ensures reply.Polled?
      ensures (reply.next, commandQueue) == Dispatch.Poll(old(commandQueue))
      ensures submitted == old(submitted) && delivered == old(delivered) + Dispatch.Taken(reply.next)
      ensures playerData == old(playerData)
    {
      if commandQueue != [] {
        var head := commandQueue[0];
        commandQueue := commandQueue[1..];
        delivered := delivered + [head];
        reply := Polled(Some(head));
      } else {
        reply := Polled(None);
      }
    }

    /** `update_player_info`: install the snapshot as the entry for its name. */
    method UpdatePlayerInfo(info: PlayerInfo) returns (reply: Reply)
      requires Valid()
      modifies this
      ensures Valid()
      ensures playerData == Store.Publish(old(playerData), info)
      ensures commandQueue == old(commandQueue)
      ensures submitted == old(submitted) && delivered == old(delivered)
      ensures reply == Updated
    {
      playerData := playerData[info.name := info];
      reply := Updated;
    }

    /** `get_all_player_info`: the whole store, read without changing anything. */
    method GetAllPlayerInfo() returns (reply: Reply)
      requires Valid()
      ensures reply.AllPlayers? && reply.players == playerData
      ensures Store.KeyedByName(reply.players)
    {
      reply := AllPlayers(playerData);
    }

    /** `change_inventory`: reject an action other than "add" or "remove" with a 400 and
        queue nothing; otherwise queue one inventory edit for the player. */
    method ChangeInventory(change: InventoryChange) returns (reply: Reply)
      requires Valid()
      modifies this
      ensures Valid()
      ensures !IsInventoryAction(change.action) ==>
                reply == BadRequest("Invalid action") && commandQueue == old(commandQueue)
                && submitted == old(submitted)
      ensures IsInventoryAction(change.action) ==>
                commandQueue == old(commandQueue) + [InventoryEdit(change)]
                && submitted == old(submitted) + [InventoryEdit(change)]
                && reply == InventoryQueued(InventoryEdit(change))
      ensures delivered == old(delivered) && playerData == old(playerData)
    {
      if !IsInventoryAction(change.action) {
        return BadRequest("Invalid action");
      }
      var cmd := InventoryEdit(change);
      Enqueue(cmd);
      reply := InventoryQueued(cmd);
    }

    /** `sabotage_player`: queue the command setting the player's attack damage to 0.5. */
    method SabotagePlayer(playerName: string) returns (reply: Reply)
      requires Valid()
      modifies this
      ensures Valid()
      ensures commandQueue == old(commandQueue) + [Sabotage(playerName)]
      ensures submitted == old(submitted) + [Sabotage(playerName)] && delivered == old(delivered)
      ensures playerData == old(playerData)
      ensures reply == PlayerAck("sabotaged", playerName)
    {
      Enqueue(Sabotage(playerName));
      reply := PlayerAck("sabotaged", playerName);
    }

    /** `unsabotage_player`: queue the command restoring the player's attack damage. */
    method UnsabotagePlayer(playerName: string) returns (reply: Reply)
      requires Valid()
      modifies this
      ensures Valid()
      ensures commandQueue == old(commandQueue) + [Unsabotage(playerName)]
      ensures submitted == old(submitted) + [Unsabotage(playerName)] && delivered == old(delivered)
      ensures playerData == old(playerData)
      ensures reply == PlayerAck("unsabotaged", playerName)
    {
      Enqueue(Unsabotage(playerName));
      reply := PlayerAck("unsabotaged", playerName);
    }

    /** `regear_player`: queue the whole regear batch, one command at a time and in kit
        order, and report how many commands were queued. */
    method RegearPlayer(playerName: string) returns (reply: Reply)
      requires Valid()
      modifies this
      ensures Valid()
      ensures commandQueue == old(commandQueue) + RegearBatch(playerName)
      ensures submitted == old(submitted) + RegearBatch(playerName) && delivered == old(delivered)
      ensures playerData == old(playerData)
      ensures reply == Regeared(playerName, 15)
    {
      var batch := RegearBatch(playerName);
      for i := 0 to |batch|
        invariant Valid()
        invariant commandQueue == old(commandQueue) + batch[..i]
        invariant submitted == old(submitted) + batch[..i] && delivered == old(delivered)
        invariant playerData == old(playerData)
      {
        Enqueue(batch[i]);
        assert batch[..i + 1] == batch[..i] + [batch[i]];
      }
      assert batch[..|batch|] == batch;
      reply := Regeared(playerName, |batch|);
    }

    /** `set_player_ability_damage`. */
    method SetPlayerAbilityDamage(playerName: string, flameType: string, damage: int) returns (reply: Reply)
      requires Valid()
      modifies this
      ensures Valid()
      ensures commandQueue == old(commandQueue) + [AbilityDamage(playerName, flameType, damage)]
      ensures submitted == old(submitted) + [AbilityDamage(playerName, flameType, damage)]
      ensures delivered == old(delivered) && playerData == old(playerData)
      ensures reply == AbilityAck("ability_damage_set", playerName, flameType, damage)
    {
      Enqueue(AbilityDamage(playerName, flameType, damage));
      reply := AbilityAck("ability_damage_set", playerName, flameType, damage);
    }

    /** `set_player_ability_duration`. */
    method SetPlayerAbilityDuration(playerName: string, flameType: string, duration: int) returns (reply: Reply)
      requires Valid()
      modifies this
      ensures Valid()
      ensures commandQueue == old(commandQueue) + [AbilityDuration(playerName, flameType, duration)]
      ensures submitted == old(submitted) + [AbilityDuration(playerName, flameType, duration)]
      ensures delivered == old(delivered) && playerData == old(playerData)
      ensures reply == AbilityAck("ability_duration_set", playerName, flameType, duration)
    {
      Enqueue(AbilityDuration(playerName, flameType, duration));
      reply := AbilityAck("ability_duration_set", playerName, flameType, duration);
    }

    /** `set_player_flame`. */
    method SetPlayerFlame(playerName: string, flameType: string) returns (reply: Reply)
      requires Valid()
      modifies this
      ensures Valid()
      ensures commandQueue == old(commandQueue) + [FlameSet(playerName, flameType)]
      ensures submitted == old(submitted) + [FlameSet(playerName, flameType)]
      ensures delivered == old(delivered) && playerData == old(playerData)
      ensures reply == FlameAck(playerName, flameType)
    {
      Enqueue(FlameSet(playerName, flameType));
      reply := FlameAck(playerName, flameType);
    }

    /** `upgrade_player_flame`. */
    method UpgradePlayerFlame(playerName: string) returns (reply: Reply)
      requires Valid()
      modifies this
      ensures Valid()
      ensures commandQueue == old(commandQueue) + [FlameUpgrade(playerName)]
      ensures submitted == old(submitted) + [FlameUpgrade(playerName)]
      ensures delivered == old(delivered) && playerData == old(playerData)
      ensures reply == PlayerAck("flame_upgraded", playerName)
    {
      Enqueue(FlameUpgrade(playerName));
      reply := PlayerAck("flame_upgraded", playerName);
    }

    /** `downgrade_player_flame`. */
    method DowngradePlayerFlame(playerName: string) returns (reply: Reply)
      requires Valid()
      modifies this
      ensures Valid()
      ensures commandQueue == old(commandQueue) + [FlameDowngrade(playerName)]
      ensures submitted == old(submitted) + [FlameDowngrade(playerName)]
      ensures delivered == old(delivered) && playerData == old(playerData)
      ensures reply == PlayerAck("flame_downgraded", playerName)
    {
      Enqueue(FlameDowngrade(playerName));
      reply := PlayerAck("flame_downgraded", playerName);
    }

    /** `give_flame_item`. */
    method GiveFlameItem(playerName: string, itemType: string) returns (reply: Reply)
      requires Valid()
      modifies this
      ensures Valid()
      ensures commandQueue == old(commandQueue) + [FlameGive(playerName, itemType)]
      ensures submitted == old(submitted) + [FlameGive(playerName, itemType)]
      ensures delivered == old(delivered) && playerData == old(playerData)
      ensures reply == ItemGiven(playerName, itemType)
    {
      Enqueue(FlameGive(playerName, itemType));
      reply := ItemGiven(playerName, itemType);
    }
  }

  /** A controller submits `cmds` to a fresh relay, then an agent polls one time more
      than there are commands: it receives every command, in submission order, and then
      `None`. */
  method SubmitThenDrain(cmds: seq<Command>) returns (polled: seq<Option<Command>>)
    ensures |polled| == |cmds| + 1
    ensures forall k :: 0 <= k < |cmds| ==> polled[k] == Some(cmds[k])
    ensures polled[|cmds|] == None
  {
    var relay := new Server();
    for i := 0 to |cmds|
      invariant relay.Valid() && relay.commandQueue == cmds[..i]
    {
      var _ := relay.ReceiveCommand(cmds[i]);
      assert cmds[..i + 1] == cmds[..i] + [cmds[i]];
    }
    polled := [];
    for j := 0 to |cmds|
      invariant relay.Valid() && relay.commandQueue == cmds[j..]
      invariant |polled| == j && forall k :: 0 <= k < j ==> polled[k] == Some(cmds[k])
    {
      var reply := relay.GetNextCommand();
      polled := polled + [reply.next];
    }
    var last := relay.GetNextCommand();
    polled := polled + [last.next];
  }

  /** A command submitted for Alice is what the next poll returns, and the poll after it
      finds the queue empty. */
  method SubmitPollPoll() returns (first: Option<Command>, second: Option<Command>)
    ensures first == Some(Command(Some("Alice"), "give", ["diamond_sword", "1"]))
    ensures second == None
  {
    var relay := new Server();
    var ack := relay.ReceiveCommand(Command(Some("Alice"), "give", ["diamond_sword", "1"]));
    var r1 := relay.GetNextCommand();
    var r2 := relay.GetNextCommand();
    first, second := r1.next, r2.next;
  }

  /** Publishing two snapshots for the same player and then reading the store returns
      the second in full.  The armor clause is a corollary of that, spelled out: a
      snapshot published without armor reads back without armor. */
  method PublishPublishRead(s1: PlayerInfo, s2: PlayerInfo) returns (read: Store.Players)
    requires s1.name == s2.name
    ensures s2.name in read && read[s2.name] == s2
    ensures s2.armor.None? ==> read[s2.name].armor.None?
    ensures read.Keys == {s2.name}
  {
    var relay := new Server();
    var u1 := relay.UpdatePlayerInfo(s1);
    var u2 := relay.UpdatePlayerInfo(s2);
    var all := relay.GetAllPlayerInfo();
    read := all.players;
  }
}
