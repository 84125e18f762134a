/** The command layer of the engine: one parsed action against the current room, the
    inventory and the fight, plus starting an adventure and reading one line of input.

    Every operation that can run a script takes `fuel` (see module `Events`). The world
    document is part of `Content` and counts as loaded. */
module Core {
  import opened Base
  import opened Model
  import Parser
  import Combat
  import Events

  /** `list || []`. */
  function OrEmpty(o: Option<seq<string>>): (r: seq<string>)
    ensures o.Some? ==> r == o.value
    ensures o.None? ==> r == []
  {
    if o.Some? then o.value else []
  }

  /** `room.exits[key]`: the destination of the exit named `key`, if any. */
  function ExitTo(exits: seq<(string, string)>, key: string): (r: Option<string>)
    ensures r.None? <==> forall i :: 0 <= i < |exits| ==> exits[i].0 != key
    ensures r.Some? ==> exists i :: 0 <= i < |exits| && exits[i] == (key, r.value)
  {
    if exits == [] then None
    else if exits[0].0 == key then Some(exits[0].1)
    else
      var r := ExitTo(exits[1..], key);
      assert forall i :: 1 <= i < |exits| ==> exits[i] == exits[1..][i - 1];
      r
  }

  /** The exit key of a move: `action.direction || action.object`, where a missing object
      is `null` and a property read with `null` reads the key "null". */
  function MoveKey(a: Parser.Action): (k: string)
    ensures Truthy(a.direction) ==> k == a.direction.value
    ensures !Truthy(a.direction) && a.obj.Some? ==> k == a.obj.value
    ensures !Truthy(a.direction) && a.obj.None? ==> k == "null"
  {
    if Truthy(a.direction) then a.direction.value
    else if a.obj.Some? then a.obj.value
    else "null"
  }

  /** `state.lockedExits[key]` is truthy. */
  predicate Locked(st: State, key: string) {
    key in st.lockedExits && st.lockedExits[key]
  }

  /** `performMove(action)`. */
  function Move(c: Content, st: State, a: Parser.Action, fuel: nat): Outcome {
    var (st1, room) := LoadRoom(c, st, st.location);
    if room.None? then Outcome(st1, Some(Missing(RoomPath(st.location))))
    else
      var key := MoveKey(a);
      var dest := ExitTo(room.value.exits, key);
      if !Truthy(dest) then Outcome(Print(st1, c.world.messages.cannotGo), None)
      else if Locked(st1, LockKey(room.value.id, key)) then Outcome(Print(st1, "Der Weg ist versperrt."), None)
      else Events.Show(c, Save(st1.(location := dest.value)), dest.value !in st1.visited, fuel)
  }

  /** The pick-up part of `performTake`, once the room item `found` has matched and its
      document has loaded: the id leaves the cached room, the item's id enters the
      inventory once. */
  function PickUp(st: State, room: Room, found: string, item: Item): State {
    var st1 := st.(rooms := st.rooms[st.location := room.(items := Without(room.items, found))]);
    var st2 := if item.id in st1.inventory then st1 else st1.(inventory := st1.inventory + [item.id]);
    Save(Print(st2, "Du nimmst " + item.name + "."))
  }

  /** `performTake(action)`. */
  function Take(c: Content, st: State, a: Parser.Action): Outcome {
    var (st1, room) := LoadRoom(c, st, st.location);
    if room.None? then Outcome(st1, Some(Missing(RoomPath(st.location))))
    else if !Truthy(a.obj) then Outcome(Print(st1, c.world.messages.unknownCommand), None)
    else
      var found := FindContaining(room.value.items, Underscored(a.obj.value));
      if found.None? then Outcome(Print(st1, c.world.messages.cannotTake), None)
      else if found.value !in c.items then Outcome(st1, Some(Missing(ItemPath(found.value))))
      else
        var item := c.items[found.value];
        if !item.pickup then Outcome(Print(st1, "Das lässt sich nicht mitnehmen."), None)
        else Outcome(PickUp(st1, room.value, found.value, item), None)
  }

  /** The part of `performInspect` after a candidate matched: an object is described and
      its inspect script runs; an item is described. */
  function Describe(c: Content, st: State, room: Room, found: string, fuel: nat): Outcome {
    if found in OrEmpty(room.objects) then
      if found !in c.objects then Outcome(st, Some(Missing(ObjectPath(found))))
      else
        var f := c.objects[found];
        Events.Run(c, Print(st, f.name + ": " + f.description), f.inspect, fuel)
    else if found in room.items || found in st.inventory then
      if found !in c.items then Outcome(st, Some(Missing(ItemPath(found))))
      else
        var item := c.items[found];
        Outcome(Print(st, item.name + ": " + item.description), None)
    else Outcome(st, None)
  }

  /** The candidate `performInspect` matches: the room's objects, then its items. */
  function InspectMatch(room: Room, a: Parser.Action): Option<string>
    requires Truthy(a.obj)
  {
    FindContaining(OrEmpty(room.objects) + room.items, Underscored(a.obj.value))
  }

  /** `performInspect(action)` as written: `room.objects.includes(match)` reads a property of
      `undefined` when the room has no objects list. */
  function InspectAsWritten(c: Content, st: State, a: Parser.Action, fuel: nat): Outcome {
    var (st1, room) := LoadRoom(c, st, st.location);
    if room.None? then Outcome(st1, Some(Missing(RoomPath(st.location))))
    else if !Truthy(a.obj) then Events.Show(c, st1, false, fuel)
    else
      var found := InspectMatch(room.value, a);
      if found.None? then Outcome(Print(st1, "Nichts Besonderes."), None)
      else if room.value.objects.None? then Outcome(st1, Some(TypeError("includes")))
      else Describe(c, st1, room.value, found.value, fuel)
  }

  /** `performInspect(action)` with `room.objects` read as `room.objects || []`, as the
      candidate list is built. */
  function Inspect(c: Content, st: State, a: Parser.Action, fuel: nat): Outcome {
    var (st1, room) := LoadRoom(c, st, st.location);
    if room.None? then Outcome(st1, Some(Missing(RoomPath(st.location))))
    else if !Truthy(a.obj) then Events.Show(c, st1, false, fuel)
    else
      var found := InspectMatch(room.value, a);
      if found.None? then Outcome(Print(st1, "Nichts Besonderes."), None)
      else Describe(c, st1, room.value, found.value, fuel)
  }

  /** `performUse(action)`: an object of the room first, then an item of the inventory. */
  function Use(c: Content, st: State, a: Parser.Action, fuel: nat): Outcome {
    var (st1, room) := LoadRoom(c, st, st.location);
    if room.None? then Outcome(st1, Some(Missing(RoomPath(st.location))))
    else if !Truthy(a.obj) then Outcome(Print(st1, c.world.messages.unknownCommand), None)
    else
      var id := Underscored(a.obj.value);
      var onObject := FindContaining(OrEmpty(room.value.objects), id);
      if onObject.Some? then
        if onObject.value !in c.objects then Outcome(st1, Some(Missing(ObjectPath(onObject.value))))
        else
          var f := c.objects[onObject.value];
          Events.Run(c, st1, if f.locked then f.onLockedUse else f.use, fuel)
      else
        var itemMatch := FindContaining(st1.inventory, id);
        if itemMatch.Some? then
          if itemMatch.value !in c.items then Outcome(st1, Some(Missing(ItemPath(itemMatch.value))))
          else Events.Run(c, st1, c.items[itemMatch.value].onUse, fuel)
        else Outcome(Print(st1, c.world.messages.unknownCommand), None)
  }

  /** `performCombine(action)`: an inventory item whose `combine` table has the target. An
      empty id found by an empty phrase is falsy, so it counts as no match. */
  function Combine(c: Content, st: State, a: Parser.Action, fuel: nat): Outcome {
    var sourceId := Underscored(OrElse(a.obj, ""));
    var targetId := Underscored(OrElse(a.target, ""));
    var found := FindContaining(st.inventory, sourceId);
    if !Truthy(found) then Outcome(Print(st, "Dir fehlt ein benötigtes Item."), None)
    else if found.value !in c.items then Outcome(st, Some(Missing(ItemPath(found.value))))
    else
      var item := c.items[found.value];
      if targetId !in item.combine then Outcome(Print(st, "Das lässt sich nicht kombinieren."), None)
      else Events.Run(c, st, item.combine[targetId], fuel)
  }

  function InventoryEntries(inv: seq<string>): (lines: seq<string>)
    ensures |lines| == |inv| && forall i :: 0 <= i < |inv| ==> lines[i] == "- " + inv[i]
  {
    if inv == [] then [] else ["- " + inv[0]] + InventoryEntries(inv[1..])
  }

  /** `describeInventory()`: the lines it prints. */
  function InventoryLines(inv: seq<string>): (lines: seq<string>)
    ensures inv == [] ==> lines == ["Dein Inventar ist leer."]
    ensures inv != [] ==> |lines| == |inv| + 1 && lines[0] == "Inventar:"
                          && forall i :: 0 <= i < |inv| ==> lines[i + 1] == "- " + inv[i]
  {
    if inv == [] then ["Dein Inventar ist leer."] else ["Inventar:"] + InventoryEntries(inv)
  }

  /** `printHelp()`. */
  const HelpLines: seq<string> := [
    "Adventure-Befehle:",
    "- adv start | adv continue | adv reset",
    "- Bewegung: geh nord/ost/sued/west oder n/s/o/w",
    "- nimm <item>, untersuche <objekt>",
    "- benutze <objekt|item>",
    "- kombiniere <item> mit <anderes>",
    "- inventar, hilfe"
  ]

  /** The verbs `handleAction` sends to `performUse`. */
  predicate UseVerb(verb: string) {
    verb == "use" || verb == "open" || verb == "close" || verb == "push" || verb == "pull"
  }

  /** `handleAction(action)`. */
  function Dispatch(c: Content, st: State, a: Parser.Action, fuel: nat): Outcome {
    if a.verb == "" then Outcome(Print(st, c.world.messages.unknownCommand), None)
    else if st.inCombat then
      var (st1, handled) := Combat.Attack(st, a.verb);
      Outcome(if handled then st1 else Print(st1, "Kampf läuft bereits."), None)
    else if a.verb == "go" then Move(c, st, a, fuel)
    else if a.verb == "take" then Take(c, st, a)
    else if a.verb == "inspect" || a.verb == "look" then Inspect(c, st, a, fuel)
    else if UseVerb(a.verb) then Use(c, st, a, fuel)
    else if a.verb == "combine" then Combine(c, st, a, fuel)
    else if a.verb == "inventory" then Outcome(PrintAll(st, InventoryLines(st.inventory)), None)
    else if a.verb == "help" then Outcome(PrintAll(st, HelpLines), None)
    else if a.verb == "attack" then Outcome(Combat.Attack(st, a.verb).0, None)
    else Outcome(Print(st, c.world.messages.unknownCommand), None)
  }

  /** The state record as `adventure.start()` resets it, before the save. The room cache
      is kept. */
  function Reset(c: Content, st: State): State {
    st.(location := c.world.startRoom, inventory := [], flags := c.world.globalFlags,
        stats := DefaultStats, inCombat := false, enemy := None, visited := {},
        lockedExits := map[])
  }

  /** `adventure.start()`. */
  function Start(c: Content, st: State, fuel: nat): Outcome {
    Events.Show(c, Print(Save(Reset(c, st)), "Starte Adventure..."), true, fuel)
  }

  /** `adventure.handleInput(text)`. */
  function Input(c: Content, st: State, text: string, fuel: nat): Outcome {
    Dispatch(c, st, Parser.ParseInput(text), fuel)
  }

  // ---------------------------------------------------------------------------------------
  // The command layer on the engine state

  /** `performMove(action)`. */
  method PerformMove(s: Session, a: Parser.Action, fuel: nat) returns (fault: Option<Fault>)
    modifies s
    ensures s.Snapshot() == Move(s.content, old(s.Snapshot()), a, fuel).st
    ensures fault == Move(s.content, old(s.Snapshot()), a, fuel).fault
  {
    var room := Events.LoadRoomInto(s, s.location);
    if room.None? {
      return Some(Missing(RoomPath(s.location)));
    }
    var key := MoveKey(a);
    var dest := ExitTo(room.value.exits, key);
    if !Truthy(dest) {
      s.out := s.out + [Line(s.content.world.messages.cannotGo)];
      return None;
    }
    var lockKey := LockKey(room.value.id, key);
    if lockKey in s.lockedExits && s.lockedExits[lockKey] {
      s.out := s.out + [Line("Der Weg ist versperrt.")];
      return None;
    }
    ghost var st1 := s.Snapshot();
    var first := dest.value !in s.visited;
    s.location := dest.value;
    s.saves := s.saves + 1;
    assert s.Snapshot() == Save(st1.(location := dest.value));
    fault := Events.ShowRoom(s, first, fuel);
  }

  /** `performTake(action)`. */
  method PerformTake(s: Session, a: Parser.Action) returns (fault: Option<Fault>)
    modifies s
    ensures s.Snapshot() == Take(s.content, old(s.Snapshot()), a).st
    ensures fault == Take(s.content, old(s.Snapshot()), a).fault
  {
    var room := Events.LoadRoomInto(s, s.location);
    if room.None? {
      return Some(Missing(RoomPath(s.location)));
    }
    if !Truthy(a.obj) {
      s.out := s.out + [Line(s.content.world.messages.unknownCommand)];
      return None;
    }
    var found := FindContaining(room.value.items, Underscored(a.obj.value));
    if found.None? {
      s.out := s.out + [Line(s.content.world.messages.cannotTake)];
      return None;
    }
    if found.value !in s.content.items {
      return Some(Missing(ItemPath(found.value)));
    }
    var item := s.content.items[found.value];
    if !item.pickup {
      s.out := s.out + [Line("Das lässt sich nicht mitnehmen.")];
      return None;
    }
    PickUpItem(s, room.value, found.value, item);
    fault := None;
  }

  /** The pick-up part of `performTake`. */
  method PickUpItem(s: Session, room: Room, found: string, item: Item)
    modifies s
    ensures s.Snapshot() == PickUp(old(s.Snapshot()), room, found, item)
  {
    s.rooms := s.rooms[s.location := room.(items := Without(room.items, found))];
    if item.id !in s.inventory {
      s.inventory := s.inventory + [item.id];
    }
    s.out := s.out + [Line("Du nimmst " + item.name + ".")];
    s.saves := s.saves + 1;
  }

  /** The part of `performInspect` after a candidate matched. */
  method DescribeMatch(s: Session, room: Room, found: string, fuel: nat) returns (fault: Option<Fault>)
    modifies s
    ensures s.Snapshot() == Describe(s.content, old(s.Snapshot()), room, found, fuel).st
    ensures fault == Describe(s.content, old(s.Snapshot()), room, found, fuel).fault
  {
    if found in OrEmpty(room.objects) {
      if found !in s.content.objects {
        return Some(Missing(ObjectPath(found)));
      }
      var f := s.content.objects[found];
      s.out := s.out + [Line(f.name + ": " + f.description)];
      fault := Events.RunEvents(s, f.inspect, fuel);
    } else if found in room.items || found in s.inventory {
      if found !in s.content.items {
        return Some(Missing(ItemPath(found)));
      }
      var item := s.content.items[found];
      s.out := s.out + [Line(item.name + ": " + item.description)];
      fault := None;
    } else {
      fault := None;
    }
  }

  /** `performInspect(action)`. */
  method PerformInspect(s: Session, a: Parser.Action, fuel: nat) returns (fault: Option<Fault>)
    modifies s
    ensures s.Snapshot() == Inspect(s.content, old(s.Snapshot()), a, fuel).st
    ensures fault == Inspect(s.content, old(s.Snapshot()), a, fuel).fault
  {
    var room := Events.LoadRoomInto(s, s.location);
    if room.None? {
      return Some(Missing(RoomPath(s.location)));
    }
    if !Truthy(a.obj) {
      fault := Events.ShowRoom(s, false, fuel);
      return;
    }
    var found := InspectMatch(room.value, a);
    if found.None? {
      s.out := s.out + [Line("Nichts Besonderes.")];
      return None;
    }
    fault := DescribeMatch(s, room.value, found.value, fuel);
  }

  /** `performUse(action)`. */
  method PerformUse(s: Session, a: Parser.Action, fuel: nat) returns (fault: Option<Fault>)
    modifies s
    ensures s.Snapshot() == Use(s.content, old(s.Snapshot()), a, fuel).st
    ensures fault == Use(s.content, old(s.Snapshot()), a, fuel).fault
  {
    var room := Events.LoadRoomInto(s, s.location);
    if room.None? {
      return Some(Missing(RoomPath(s.location)));
    }
    if !Truthy(a.obj) {
      s.out := s.out + [Line(s.content.world.messages.unknownCommand)];
      return None;
    }
    var id := Underscored(a.obj.value);
    var onObject := FindContaining(OrEmpty(room.value.objects), id);
    if onObject.Some? {
      if onObject.value !in s.content.objects {
        return Some(Missing(ObjectPath(onObject.value)));
      }
      var f := s.content.objects[onObject.value];
      if f.locked {
        fault := Events.RunEvents(s, f.onLockedUse, fuel);
        return;
      }
      fault := Events.RunEvents(s, f.use, fuel);
      return;
    }
    var itemMatch := FindContaining(s.inventory, id);
    if itemMatch.Some? {
      if itemMatch.value !in s.content.items {
        return Some(Missing(ItemPath(itemMatch.value)));
      }
      fault := Events.RunEvents(s, s.content.items[itemMatch.value].onUse, fuel);
      return;
    }
    s.out := s.out + [Line(s.content.world.messages.unknownCommand)];
    fault := None;
  }

  /** `performCombine(action)`. */
  method PerformCombine(s: Session, a: Parser.Action, fuel: nat) returns (fault: Option<Fault>)
    modifies s
    ensures s.Snapshot() == Combine(s.content, old(s.Snapshot()), a, fuel).st
    ensures fault == Combine(s.content, old(s.Snapshot()), a, fuel).fault
  {
    var sourceId := Underscored(OrElse(a.obj, ""));
    var targetId := Underscored(OrElse(a.target, ""));
    var found := FindContaining(s.inventory, sourceId);
    if !Truthy(found) {
      s.out := s.out + [Line("Dir fehlt ein benötigtes Item.")];
      return None;
    }
    if found.value !in s.content.items {
      return Some(Missing(ItemPath(found.value)));
    }
    var item := s.content.items[found.value];
    if targetId !in item.combine {
      s.out := s.out + [Line("Das lässt sich nicht kombinieren.")];
      return None;
    }
    fault := Events.RunEvents(s, item.combine[targetId], fuel);
  }

  /** `describeInventory()`: the lines are collected one inventory entry at a time. */
  method DescribeInventory(s: Session)
    modifies s
    ensures s.Snapshot() == old(s.Snapshot()).(out := old(s.out) + Lines(InventoryLines(old(s.inventory))))
  {
    var inv := s.inventory;
    if |inv| == 0 {
      s.out := s.out + [Line("Dein Inventar ist leer.")];
      return;
    }
    var lines := ["Inventar:"];
    for i := 0 to |inv|
      invariant |lines| == i + 1 && lines[0] == "Inventar:"
      invariant forall j :: 0 <= j < i ==> lines[j + 1] == "- " + inv[j]
    {
      lines := lines + ["- " + inv[i]];
    }
    assert lines == InventoryLines(inv);
    s.out := s.out + Lines(lines);
  }

  /** `handleAction(action)`. */
  method HandleAction(s: Session, a: Parser.Action, fuel: nat) returns (fault: Option<Fault>)
    modifies s
    ensures s.Snapshot() == Dispatch(s.content, old(s.Snapshot()), a, fuel).st
    ensures fault == Dispatch(s.content, old(s.Snapshot()), a, fuel).fault
  {
    fault := None;
    if a.verb == "" {
      s.out := s.out + [Line(s.content.world.messages.unknownCommand)];
      return;
    }
    if s.inCombat {
      var handled := Combat.HandleCombatAction(s, a);
      if !handled {
        s.out := s.out + [Line("Kampf läuft bereits.")];
      }
      return;
    }
    if a.verb == "go" {
      fault := PerformMove(s, a, fuel);
    } else if a.verb == "take" {
      fault := PerformTake(s, a);
    } else if a.verb == "inspect" || a.verb == "look" {
      fault := PerformInspect(s, a, fuel);
    } else if UseVerb(a.verb) {
      fault := PerformUse(s, a, fuel);
    } else if a.verb == "combine" {
      fault := PerformCombine(s, a, fuel);
    } else if a.verb == "inventory" {
      DescribeInventory(s);
    } else if a.verb == "help" {
      s.out := s.out + Lines(HelpLines);
    } else if a.verb == "attack" {
      var _ := Combat.HandleCombatAction(s, a);
    } else {
      s.out := s.out + [Line(s.content.world.messages.unknownCommand)];
    }
  }

  /** `adventure.start()`. */
  method StartAdventure(s: Session, fuel: nat) returns (fault: Option<Fault>)
    modifies s
    ensures s.Snapshot() == Start(s.content, old(s.Snapshot()), fuel).st
    ensures fault == Start(s.content, old(s.Snapshot()), fuel).fault
  {
    ResetState(s);
    s.saves := s.saves + 1;
    s.out := s.out + [Line("Starte Adventure...")];
    fault := Events.ShowRoom(s, true, fuel);
  }

  /** The assignments at the head of `adventure.start()`. */
  method ResetState(s: Session)
    modifies s
    ensures s.Snapshot() == Reset(s.content, old(s.Snapshot()))
  {
    s.location := s.content.world.startRoom;
    s.inventory := [];
    s.flags := s.content.world.globalFlags;
    s.stats := DefaultStats;
    s.inCombat := false;
    s.enemy := None;
    s.visited := {};
    s.lockedExits := map[];
  }

  /** `adventure.handleInput(text)`. */
  method HandleInput(s: Session, text: string, fuel: nat) returns (fault: Option<Fault>)
    modifies s
    ensures s.Snapshot() == Input(s.content, old(s.Snapshot()), text, fuel).st
    ensures fault == Input(s.content, old(s.Snapshot()), text, fuel).fault
  {
    var action := Parser.ParseInput(text);
    fault := HandleAction(s, action, fuel);
  }
}
