/**
 * The applet's directory of running MPRIS players: `_players` (owner token to
 * player), `_playerItems` (the "Choose player controls" list) and
 * `_activePlayer`, driven by the D-Bus `NameOwnerChanged` signal
 * (D-Bus Specification, "Message Bus Messages").
 *
 * A player is an object shared between `_players` and `_playerItems`, and its
 * `_owner` and `_busName` are updated in place, so it is a class here. A
 * JavaScript object enumerates non-numeric keys in insertion order; that order
 * decides the next active player, so it is kept in `keyOrder`.
 */
module PlayerRegistry {
  import opened Wrappers
  import opened MprisNames

  /** The registry's view of a `Player`: the bus name, the owner token and the display name. */
  class Player {
    var busName: string
    var owner: string
    var name: string

    /** A new player shows its bus name until the player's Identity arrives. */
    constructor (busName: string, owner: string)
      ensures this.busName == busName && this.owner == owner && this.name == busName
    {
      this.busName := busName;
      this.owner := owner;
      this.name := busName;
    }
  }

  predicate Distinct<T(==)>(s: seq<T>) {
    forall i, j | 0 <= i < j < |s| :: s[i] != s[j]
  }

  /** `s` without the occurrences of `x`: the key order after `delete`. */
  function Erase(s: seq<string>, x: string): (r: seq<string>)
    ensures forall y :: y in r <==> y in s && y != x
    ensures |r| <= |s|
    ensures Distinct(s) ==> Distinct(r)
  {
    if s == [] then []
    else if s[0] == x then Erase(s[1..], x)
    else
      var rest := Erase(s[1..], x);
      assert Distinct(s) ==> s[0] !in rest && Distinct([s[0]] + rest) by {
        if Distinct(s) {
          assert s[0] !in s[1..];
          assert s[0] !in rest;
          forall i, j | 0 <= i < j < |[s[0]] + rest| ensures ([s[0]] + rest)[i] != ([s[0]] + rest)[j] {
            if i == 0 {
              assert ([s[0]] + rest)[j] in rest;
            }
          }
        }
      }
      [s[0]] + rest
  }

  /** Index of the first item whose player is owned by `owner`, or -1 when there is none. */
  function FirstOwnedBy(ps: seq<Player>, owner: string): (i: int)
    reads set p | p in ps
    ensures -1 <= i < |ps|
    ensures 0 <= i ==> ps[i].owner == owner
    ensures forall j | 0 <= j < |ps| && (i < 0 || j < i) :: ps[j].owner != owner
  {
    if ps == [] then -1
    else if ps[0].owner == owner then 0
    else
      var k := FirstOwnedBy(ps[1..], owner);
      if k < 0 then -1 else k + 1
  }

  /** The item list after `_removePlayerItem(owner)`: the first matching item is spliced out. */
  function WithoutFirstOwnedBy(ps: seq<Player>, owner: string): (r: seq<Player>)
    reads set p | p in ps
  {
    var i := FirstOwnedBy(ps, owner);
    if i < 0 then ps else ps[..i] + ps[i + 1..]
  }

  /** Which handler the `NameOwnerChanged` callback runs. */
  datatype OwnerEvent = Ignored | Appeared | Vanished | OwnerChanged

  /**
   * The dispatch on a `NameOwnerChanged(name, oldOwner, newOwner)` signal: names
   * outside the MPRIS namespace are ignored; an owner appearing from nothing is
   * an addition, an owner disappearing is a removal, anything else an owner change.
   */
  function ClassifyOwnerChange(name: string, oldOwner: string, newOwner: string): (e: OwnerEvent)
    ensures e == Ignored <==> !IsMprisName(name)
    ensures e == Appeared <==> IsMprisName(name) && newOwner != "" && oldOwner == ""
    ensures e == Vanished <==> IsMprisName(name) && oldOwner != "" && newOwner == ""
    ensures e == OwnerChanged ==> (oldOwner == "") == (newOwner == "")
  {
    if !IsMprisName(name) then Ignored
    else if newOwner != "" && oldOwner == "" then Appeared
    else if oldOwner != "" && newOwner == "" then Vanished
    else OwnerChanged
  }

  /**
   * Splicing out the first item owned by an owner that is not (or no longer)
   * registered keeps every registered player listed, and listed once.
   */
  lemma ItemsKeepPlayers(players: map<string, Player>, before: seq<Player>, after: seq<Player>, owner: string)
    requires owner !in players
    requires forall k | k in players :: players[k].owner == k
    requires Distinct(before) && forall k | k in players :: players[k] in before
    requires after == WithoutFirstOwnedBy(before, owner)
    ensures Distinct(after) && forall k | k in players :: players[k] in after
  {
    var i := FirstOwnedBy(before, owner);
    if 0 <= i {
      forall k | k in players ensures players[k] in after {
        var j :| 0 <= j < |before| && before[j] == players[k];
        assert j != i;
        if j < i { assert after[j] == players[k]; } else { assert after[j - 1] == players[k]; }
      }
      forall a, b | 0 <= a < b < |after| ensures after[a] != after[b] {
        var a', b' := if a < i then a else a + 1, if b < i then b else b + 1;
        assert after[a] == before[a'] && after[b] == before[b'];
      }
    }
  }

  class Registry {
    /** `_players`: owner token to player. */
    var players: map<string, Player>
    /** The order in which the keys of `_players` were inserted. */
    var keyOrder: seq<string>
    /** `_playerItems`, each item abstracted to the player it switches to. */
    var items: seq<Player>
    /** `_activePlayer`. */
    var active: Option<string>

    /**
     * Structure every event keeps: each registered player is keyed by its own
     * owner token and listed exactly once among the items; the key order
     * lists exactly the keys.
     */
    ghost predicate Consistent()
      reads this, players.Values
    {
      && (forall k | k in players :: players[k].owner == k)
      && Distinct(keyOrder)
      && (forall k :: k in keyOrder <==> k in players)
      && Distinct(items)
      && (forall k | k in players :: players[k] in items)
    }

    /** The active pointer is null or names a registered player. */
    ghost predicate Valid()
      reads this, players.Values
    {
      Consistent() && (active.Some? ==> active.value in players)
    }

    constructor ()
      ensures Valid()
      ensures players == map[] && keyOrder == [] && items == [] && active == None
    {
      players := map[];
      keyOrder := [];
      items := [];
      active := None;
    }

    /** `_removePlayerItem`: drop the first item whose player is owned by `owner`. */
    method RemovePlayerItem(owner: string)
      modifies this`items
      ensures items == old(WithoutFirstOwnedBy(items, owner))
    {
      ghost var i0 := FirstOwnedBy(items, owner);
      var i := 0;
      while i < |items|
        invariant 0 <= i <= |items|
        invariant forall j | 0 <= j < i :: items[j].owner != owner
      {
        if items[i].owner == owner {
          assert i0 == i;
          items := items[..i] + items[i + 1..];
          return;
        }
        i := i + 1;
      }
    }

    /**
     * `_addPlayer`. A known owner keeps its entry; only a master name is
     * upgraded to an incoming instance name. A new, non-empty owner gets a new
     * player, appended to the items and the key order, and becomes active.
     */
    method AddPlayer(busName: string, owner: string)
      requires Valid()
      modifies this, if owner in players then {players[owner]} else {}
      ensures Valid()
      ensures owner in old(players) ==>
        && players == old(players) && keyOrder == old(keyOrder)
        && items == old(items) && active == old(active)
        && players[owner].owner == owner && players[owner].name == old(players[owner].name)
        && players[owner].busName ==
             if IsInstance(busName) && !IsInstance(old(players[owner].busName)) then busName
             else old(players[owner].busName)
      ensures owner !in old(players) && owner == "" ==>
        players == old(players) && keyOrder == old(keyOrder) && items == old(items) && active == old(active)
      ensures owner !in old(players) && owner != "" ==>
        && owner in players && fresh(players[owner])
        && players == old(players)[owner := players[owner]]
        && players[owner].busName == busName && players[owner].owner == owner
        && keyOrder == old(keyOrder) + [owner]
        && items == old(items) + [players[owner]]
        && active == Some(owner)
    {
      if owner in players {
        var prevName := players[owner].busName;
        if IsInstance(busName) && !IsInstance(prevName) {
          players[owner].busName := busName;
        } else {
          return;
        }
      } else if owner != "" {
        var player := new Player(busName, owner);
        players := players[owner := player];
        keyOrder := keyOrder + [owner];
        items := items + [player];
        active := Some(owner);
      }
    }

    /** `_switchPlayer`: activate a known owner, otherwise drop its stale item. */
    method SwitchPlayer(owner: string)
      requires Valid()
      modifies this
      ensures Valid()
      ensures players == old(players) && keyOrder == old(keyOrder)
      ensures owner in players ==> active == Some(owner) && items == old(items)
      ensures owner !in players ==> active == old(active) && items == old(WithoutFirstOwnedBy(items, owner))
    {
      if owner in players {
        active := Some(owner);
      } else {
        ghost var before := items;
        RemovePlayerItem(owner);
        ItemsKeepPlayers(players, before, items, owner);
      }
    }

    /**
     * `_removePlayer`: only a registered owner whose player carries `busName`
     * is removed, from the map, the key order and the items. If it was active,
     * the first remaining key in insertion order becomes active, or none.
     */
    method RemovePlayer(busName: string, owner: string)
      requires Valid()
      modifies this
      ensures Valid()
      ensures !(owner in old(players) && old(players[owner].busName) == busName) ==>
        players == old(players) && keyOrder == old(keyOrder) && items == old(items) && active == old(active)
      ensures owner in old(players) && old(players[owner].busName) == busName ==>
        && players == old(players) - {owner}
        && keyOrder == Erase(old(keyOrder), owner)
        && items == old(WithoutFirstOwnedBy(items, owner))
        && active == if old(active) != Some(owner) then old(active)
                     else if keyOrder == [] then None
                     else Some(keyOrder[0])
    {
      if owner in players && players[owner].busName == busName {
        ghost var before := items;
        RemovePlayerItem(owner);
        var remaining := players - {owner};
        ItemsKeepPlayers(remaining, before, items, owner);
        var order := Erase(keyOrder, owner);
        assert forall k :: k in order <==> k in remaining;
        var next := active;
        if active == Some(owner) {
          next := None;
          if order != [] {
            assert order[0] in remaining;
            next := Some(order[0]);
          }
        }
        players, keyOrder, active := remaining, order, next;
      }
    }

    /**
     * `_changePlayerOwner`: when the player registered under `oldOwner` carries
     * `busName`, the same player object is stored under `newOwner`, takes
     * `newOwner` as its owner, `oldOwner` is deleted, and an active pointer at
     * `oldOwner` follows it. Assigning then deleting means that equal owners
     * delete the entry; the bus never reports such a change, and only for
     * distinct owners is the active pointer guaranteed to stay valid.
     */
    method ChangePlayerOwner(busName: string, oldOwner: string, newOwner: string)
      requires Valid()
      modifies this, if oldOwner in players then {players[oldOwner]} else {}
      ensures Consistent()
      ensures oldOwner != newOwner ==> Valid()
      ensures !(oldOwner in old(players) && old(players[oldOwner].busName) == busName) ==>
        players == old(players) && keyOrder == old(keyOrder) && items == old(items) && active == old(active)
      ensures oldOwner in old(players) && old(players[oldOwner].busName) == busName ==>
        var moved := old(players[oldOwner]);
        && players == old(players)[newOwner := moved] - {oldOwner}
        && moved.owner == newOwner && moved.busName == busName && moved.name == old(moved.name)
        && keyOrder == Erase(if newOwner in old(players) then old(keyOrder) else old(keyOrder) + [newOwner], oldOwner)
        && items == old(items)
        && active == if old(active) == Some(oldOwner) then Some(newOwner) else old(active)
    {
      if oldOwner in players && busName == players[oldOwner].busName {
        var player := players[oldOwner];
        if newOwner !in players {
          keyOrder := keyOrder + [newOwner];
        }
        players := players[newOwner := player];
        player.owner := newOwner;
        players := players - {oldOwner};
        keyOrder := Erase(keyOrder, oldOwner);
        if active == Some(oldOwner) {
          active := Some(newOwner);
        }
      }
    }

    /**
     * The `NameOwnerChanged` callback. It reports which handler ran and leaves
     * the registry as that handler does; for a change between distinct owners
     * the registry stays valid. Only the players under the two owners can
     * change, and every player it holds afterwards was held before or is new.
     */
    method OnNameOwnerChanged(name: string, oldOwner: string, newOwner: string) returns (e: OwnerEvent)
      requires Valid()
      modifies this
      modifies if oldOwner in players then {players[oldOwner]} else {}
      modifies if newOwner in players then {players[newOwner]} else {}
      ensures e == ClassifyOwnerChange(name, oldOwner, newOwner)
      ensures Consistent()
      ensures oldOwner != newOwner ==> Valid()
      ensures forall k | k in players :: players[k] in old(players.Values) || fresh(players[k])
      ensures e == Ignored ==>
        players == old(players) && keyOrder == old(keyOrder) && items == old(items) && active == old(active)
      // `_addPlayer(name, newOwner)`
      ensures e == Appeared && newOwner in old(players) ==>
        && players == old(players) && keyOrder == old(keyOrder)
        && items == old(items) && active == old(active)
        && players[newOwner].owner == newOwner && players[newOwner].name == old(players[newOwner].name)
        && players[newOwner].busName ==
             if IsInstance(name) && !IsInstance(old(players[newOwner].busName)) then name
             else old(players[newOwner].busName)
      ensures e == Appeared && newOwner !in old(players) ==>
        && newOwner in players && fresh(players[newOwner])
        && players == old(players)[newOwner := players[newOwner]]
        && players[newOwner].busName == name && players[newOwner].owner == newOwner
        && keyOrder == old(keyOrder) + [newOwner]
        && items == old(items) + [players[newOwner]]
        && active == Some(newOwner)
      // `_removePlayer(name, oldOwner)`
      ensures e == Vanished && !(oldOwner in old(players) && old(players[oldOwner].busName) == name) ==>
        players == old(players) && keyOrder == old(keyOrder) && items == old(items) && active == old(active)
      ensures e == Vanished && oldOwner in old(players) && old(players[oldOwner].busName) == name ==>
        && players == old(players) - {oldOwner}
        && keyOrder == Erase(old(keyOrder), oldOwner)
        && items == old(WithoutFirstOwnedBy(items, oldOwner))
        && active == if old(active) != Some(oldOwner) then old(active)
                     else if keyOrder == [] then None
                     else Some(keyOrder[0])
      // `_changePlayerOwner(name, oldOwner, newOwner)`
      ensures e == OwnerChanged && !(oldOwner in old(players) && old(players[oldOwner].busName) == name) ==>
        players == old(players) && keyOrder == old(keyOrder) && items == old(items) && active == old(active)
      ensures e == OwnerChanged && oldOwner in old(players) && old(players[oldOwner].busName) == name ==>
        var moved := old(players[oldOwner]);
        && players == old(players)[newOwner := moved] - {oldOwner}
        && moved.owner == newOwner && moved.busName == name && moved.name == old(moved.name)
        && keyOrder == Erase(if newOwner in old(players) then old(keyOrder) else old(keyOrder) + [newOwner], oldOwner)
        && items == old(items)
        && active == if old(active) == Some(oldOwner) then Some(newOwner) else old(active)
    {
      e := ClassifyOwnerChange(name, oldOwner, newOwner);
      match e {
        case Ignored =>
        case Appeared => AddPlayer(name, newOwner);
        case Vanished => RemovePlayer(name, oldOwner);
        case OwnerChanged => ChangePlayerOwner(name, oldOwner, newOwner);
      }
    }
  }

  /** A player that appears and then vanishes under the same name leaves no trace. */
  method AppearThenVanish(name: string, owner: string) returns (r: Registry)
    requires IsMprisName(name) && owner != ""
    ensures r.Valid() && r.players == map[] && r.keyOrder == [] && r.items == [] && r.active == None
  {
    r := new Registry();
    var appeared := r.OnNameOwnerChanged(name, "", owner);
    assert appeared == Appeared;
    var p := r.players[owner];
    assert r.items == [p] && r.keyOrder == [owner];
    assert FirstOwnedBy([p], owner) == 0;
    var vanished := r.OnNameOwnerChanged(name, owner, "");
    assert vanished == Vanished;
  }

  /** The master name first, then an instance name for the same owner: one player, named by the instance. */
  method MasterThenInstance(player: string, instance: string, owner: string) returns (r: Registry)
    requires '.' !in player && !IsVlcInstance(MprisPrefix + player) && owner != ""
    ensures r.Valid() && r.players.Keys == {owner} && |r.items| == 1
    ensures r.players[owner].busName == MprisPrefix + player + "." + instance
  {
    MasterName(player);
    InstanceName(player, instance);
    var master := MprisPrefix + player;
    var named := MprisPrefix + player + "." + instance;
    assert master[..|MprisPrefix|] == MprisPrefix;
    assert named[..|MprisPrefix|] == MprisPrefix;
    r := new Registry();
    var first := r.OnNameOwnerChanged(master, "", owner);
    assert first == Appeared;
    var second := r.OnNameOwnerChanged(named, "", owner);
    assert second == Appeared;
  }
}
