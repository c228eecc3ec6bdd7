/** The player-state store as a value: a map from player name to that player's latest
    snapshot.  The relay's methods are proved against `Publish`; the lemmas here give
    last-write-wins and read-back. */
module Store {
  import opened Wrappers
  import opened Snapshot

  type Players = map<string, PlayerInfo>

  /** Every entry is filed under its own snapshot's name. */
  ghost predicate KeyedByName(m: Players)
  {
    forall k :: k in m ==> m[k].name == k
  }

  /** `update_player_info`: the snapshot becomes the entry for its name, replacing any
      earlier one wholesale; every other entry stays as it was. */
  function Publish(m: Players, info: PlayerInfo): (r: Players)
    ensures r.Keys == m.Keys + {info.name}
    ensures r[info.name] == info
    ensures forall k :: k in m && k != info.name ==> r[k] == m[k]
  {
    m[info.name := info]
  }

  /** The entry for one name, or `None` for a name never published. */
  function Lookup(m: Players, name: string): (r: Option<PlayerInfo>)
    ensures r.Some? <==> name in m
    ensures r.Some? ==> r.value == m[name]
  {
    if name in m then Some(m[name]) else None
  }

  /** Publishing keeps every entry filed under its own name. */
  lemma PublishKeepsKeys(m: Players, info: PlayerInfo)
    requires KeyedByName(m)
    ensures KeyedByName(Publish(m, info))
  {
  }

  /** Reading back after a publish gives exactly the published snapshot.  The second
      clause is a corollary of the first, spelled out for one optional part: armor
      published as absent reads back absent. */
  lemma ReadBack(m: Players, info: PlayerInfo)
    ensures Lookup(Publish(m, info), info.name) == Some(info)
    ensures info.armor.None? ==> Lookup(Publish(m, info), info.name).value.armor.None?
  {
  }

  /** A publish leaves every other player's entry, present or absent, as it was. */
  lemma PublishIsolated(m: Players, info: PlayerInfo, other: string)
    requires other != info.name
    ensures Lookup(Publish(m, info), other) == Lookup(m, other)
  {
  }

  /** Last write wins: a second publish for the same name discards the first
      completely. */
  lemma LastWriteWins(m: Players, s1: PlayerInfo, s2: PlayerInfo)
    requires s1.name == s2.name
    ensures Publish(Publish(m, s1), s2) == Publish(m, s2)
  {
  }

  /** Publishes for different names do not interfere: their order does not matter. */
  lemma PublishesCommute(m: Players, a: PlayerInfo, b: PlayerInfo)
    requires a.name != b.name
    ensures Publish(Publish(m, a), b) == Publish(Publish(m, b), a)
  {
  }

  /** The store after a sequence of publishes, applied in order. */
  function PublishAll(m: Players, infos: seq<PlayerInfo>): Players
    decreases |infos|
  {
    if infos == [] then m else PublishAll(Publish(m, infos[0]), infos[1..])
  }

  /** After any sequence of publishes, a name holds the last snapshot published for it,
      and a name never published holds what it held before. */
  lemma {:induction false} PublishAllLastWins(m: Players, infos: seq<PlayerInfo>, name: string)
    ensures (exists i :: 0 <= i < |infos| && infos[i].name == name) ==>
              Lookup(PublishAll(m, infos), name) == Some(infos[LastIndexOf(infos, name)])
    ensures (forall i :: 0 <= i < |infos| ==> infos[i].name != name) ==>
              Lookup(PublishAll(m, infos), name) == Lookup(m, name)
    decreases |infos|
  {
    if infos != [] {
      PublishAllLastWins(Publish(m, infos[0]), infos[1..], name);
      if exists i :: 1 <= i < |infos| && infos[i].name == name {
        var i :| 1 <= i < |infos| && infos[i].name == name;
        assert infos[1..][i - 1].name == name;
        assert LastIndexOf(infos, name) == LastIndexOf(infos[1..], name) + 1;
      } else if infos[0].name == name {
        assert forall i :: 0 <= i < |infos[1..]| ==> infos[1..][i].name != name;
        assert LastIndexOf(infos, name) == 0;
      } else {
        assert forall i :: 0 <= i < |infos[1..]| ==> infos[1..][i].name != name;
      }
    }
  }

  /** The position of the last snapshot for `name`, or -1 when there is none. */
  function LastIndexOf(infos: seq<PlayerInfo>, name: string): (r: int)
    ensures -1 <= r < |infos|
    ensures r >= 0 ==> infos[r].name == name && forall j :: r < j < |infos| ==> infos[j].name != name
    ensures r == -1 ==> forall j :: 0 <= j < |infos| ==> infos[j].name != name
    decreases |infos|
  {
    if infos == [] then -1
    else if infos[|infos| - 1].name == name then |infos| - 1
    else LastIndexOf(infos[..|infos| - 1], name)
  }
}
