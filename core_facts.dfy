/** What the command layer promises: moves that fail stay put, a move enters the next
    room, taking moves an item from the room into the inventory once, using prefers the
    room's objects, a fight captures every action, and starting resets the player state. */
module CoreFacts {
  import opened Base
  import opened Model
  import Parser
  import ParserFacts
  import Combat
  import Events
  import opened Core

  /** The room the engine is in can be loaded. */
  predicate HasRoom(c: Content, st: State) {
    st.location in st.rooms || st.location in c.rooms
  }

  /** A move without an exit of that name, or through a locked exit, prints one line and
      changes nothing else (the room may enter the cache). */
  lemma MoveFailureStays(c: Content, st: State, a: Parser.Action, fuel: nat)
    requires HasRoom(c, st)
    ensures var (st1, room) := LoadRoom(c, st, st.location);
      var dest := ExitTo(room.value.exits, MoveKey(a));
      (!Truthy(dest) ==> Move(c, st, a, fuel) == Outcome(Print(st1, c.world.messages.cannotGo), None))
      && (Truthy(dest) && Locked(st, LockKey(room.value.id, MoveKey(a))) ==>
            Move(c, st, a, fuel) == Outcome(Print(st1, "Der Weg ist versperrt."), None))
      && (!Truthy(dest) || Locked(st, LockKey(room.value.id, MoveKey(a))) ==>
            Move(c, st, a, fuel).st == st.(rooms := st1.rooms, out := Move(c, st, a, fuel).st.out))
  {
  }

  /** An open exit moves the player, saves, and shows the destination, as a first visit
      exactly when it was not visited before. */
  lemma MoveEnters(c: Content, st: State, a: Parser.Action, fuel: nat)
    requires HasRoom(c, st)
    requires var room := LoadRoom(c, st, st.location).1.value;
      Truthy(ExitTo(room.exits, MoveKey(a))) && !Locked(st, LockKey(room.id, MoveKey(a)))
    ensures var (st1, room) := LoadRoom(c, st, st.location);
      var dest := ExitTo(room.value.exits, MoveKey(a)).value;
      Move(c, st, a, fuel)
        == Events.Show(c, st1.(location := dest, saves := st.saves + 1), dest !in st.visited, fuel)
  {
    var (st1, room) := LoadRoom(c, st, st.location);
    assert st1 == st.(rooms := st1.rooms);
  }

  /** Entering a room that can be loaded marks it visited, whatever its script does. */
  lemma ShowMarks(c: Content, st: State, first: bool, fuel: nat)
    requires HasRoom(c, st)
    ensures var room := LoadRoom(c, st, st.location).1.value;
      room.id in Events.Show(c, st, first, fuel).st.visited
      && st.visited <= Events.Show(c, st, first, fuel).st.visited
  {
    var (st1, room) := LoadRoom(c, st, st.location);
    var st2 := Events.Shown(st1, room.value);
    Events.ShownMarksVisited(st1, room.value);
    var es := Events.Script(room.value, first);
    if es != [] && fuel > 0 {
      Events.RunGrows(c, st2, es, fuel - 1);
    }
  }

  /** After a successful move the destination room is marked visited. */
  lemma MoveMarksDestination(c: Content, st: State, a: Parser.Action, fuel: nat)
    requires HasRoom(c, st)
    requires var room := LoadRoom(c, st, st.location).1.value;
      Truthy(ExitTo(room.exits, MoveKey(a))) && !Locked(st, LockKey(room.id, MoveKey(a)))
    ensures var (st1, room) := LoadRoom(c, st, st.location);
      var dest := ExitTo(room.value.exits, MoveKey(a)).value;
      var entered := st1.(location := dest, saves := st.saves + 1);
      HasRoom(c, entered) ==>
        LoadRoom(c, entered, dest).1.value.id in Move(c, st, a, fuel).st.visited
        && st.visited <= Move(c, st, a, fuel).st.visited
  {
    var (st1, room) := LoadRoom(c, st, st.location);
    var dest := ExitTo(room.value.exits, MoveKey(a)).value;
    var entered := st1.(location := dest, saves := st.saves + 1);
    MoveEnters(c, st, a, fuel);
    if HasRoom(c, entered) {
      ShowMarks(c, entered, dest !in st.visited, fuel);
    }
  }

  /** Taking an item of the room that can be picked up: the first room item whose id
      contains the phrase (spaces read as underscores) leaves the cached room entirely,
      every other room item stays, the item's id is in the inventory, no inventory entry
      is lost or doubled, and the state is saved. */
  lemma TakeMovesItem(c: Content, st: State, a: Parser.Action)
    requires HasRoom(c, st) && Truthy(a.obj)
    requires var room := LoadRoom(c, st, st.location).1.value;
      var found := FindContaining(room.items, Underscored(a.obj.value));
      found.Some? && found.value in c.items && c.items[found.value].pickup
    ensures var (st1, room) := LoadRoom(c, st, st.location);
      var found := FindContaining(room.value.items, Underscored(a.obj.value)).value;
      var item := c.items[found];
      var r := Take(c, st, a);
      r.fault.None? && r.st.location == st.location && st.location in r.st.rooms
      && found !in r.st.rooms[st.location].items
      && (forall other :: other in room.value.items && other != found ==> other in r.st.rooms[st.location].items)
      && item.id in r.st.inventory
      && r.st.inventory[..|st.inventory|] == st.inventory
      && |r.st.inventory| <= |st.inventory| + 1
      && (NoDuplicates(st.inventory) ==> NoDuplicates(r.st.inventory))
      && r.st.saves == st.saves + 1
      && r.st.out == st.out + [Line("Du nimmst " + item.name + ".")]
  {
    var (st1, room) := LoadRoom(c, st, st.location);
    var found := FindContaining(room.value.items, Underscored(a.obj.value)).value;
    var item := c.items[found];
    assert Take(c, st, a) == Outcome(PickUp(st1, room.value, found, item), None);
    PickUpMoves(st1, room.value, found, item);
  }

  /** Picking up: the matched id leaves the cached room entirely, every other room item
      stays, the item's id is carried once, one line is printed and the state is saved. */
  lemma PickUpMoves(st: State, room: Room, found: string, item: Item)
    ensures var r := PickUp(st, room, found, item);
      r.location == st.location && st.location in r.rooms
      && found !in r.rooms[st.location].items
      && (forall other :: other in room.items && other != found ==> other in r.rooms[st.location].items)
      && item.id in r.inventory
      && r.inventory[..|st.inventory|] == st.inventory
      && |r.inventory| <= |st.inventory| + 1
      && (NoDuplicates(st.inventory) ==> NoDuplicates(r.inventory))
      && r.saves == st.saves + 1
      && r.out == st.out + [Line("Du nimmst " + item.name + ".")]
  {
    var r := PickUp(st, room, found, item);
    if item.id !in st.inventory {
      var inv := st.inventory + [item.id];
      assert r.inventory == inv && inv[|st.inventory|] == item.id;
    }
  }

  /** A take that does not pick anything up prints one line and changes nothing else. */
  lemma TakeRefuses(c: Content, st: State, a: Parser.Action)
    requires HasRoom(c, st)
    ensures var (st1, room) := LoadRoom(c, st, st.location);
      (!Truthy(a.obj) ==> Take(c, st, a) == Outcome(Print(st1, c.world.messages.unknownCommand), None))
      && (Truthy(a.obj) && FindContaining(room.value.items, Underscored(a.obj.value)).None? ==>
            Take(c, st, a) == Outcome(Print(st1, c.world.messages.cannotTake), None))
      && (Truthy(a.obj) && FindContaining(room.value.items, Underscored(a.obj.value)).Some?
          && FindContaining(room.value.items, Underscored(a.obj.value)).value in c.items
          && !c.items[FindContaining(room.value.items, Underscored(a.obj.value)).value].pickup ==>
            Take(c, st, a) == Outcome(Print(st1, "Das lässt sich nicht mitnehmen."), None))
  {
  }

  /** `use` looks at the room's objects first: when one matches, the inventory is not
      consulted and the object's locked-use or use script runs; when nothing matches, the
      unknown-command message is printed. */
  lemma UsePrefersObjects(c: Content, st: State, a: Parser.Action, fuel: nat)
    requires HasRoom(c, st) && Truthy(a.obj)
    ensures var (st1, room) := LoadRoom(c, st, st.location);
      var id := Underscored(a.obj.value);
      var onObject := FindContaining(OrEmpty(room.value.objects), id);
      (onObject.Some? && onObject.value in c.objects ==>
         Use(c, st, a, fuel) == Events.Run(c, st1,
           if c.objects[onObject.value].locked then c.objects[onObject.value].onLockedUse
           else c.objects[onObject.value].use, fuel))
      && (onObject.None? && FindContaining(st.inventory, id).None? ==>
            Use(c, st, a, fuel) == Outcome(Print(st1, c.world.messages.unknownCommand), None))
  {
  }

  /** Combining looks for the first inventory id that contains the object (spaces read as
      underscores): without one, with an empty id found by an empty object, or when that item
      has no script for the target, one line is printed and nothing else changes; otherwise
      the item's script for the target runs. */
  lemma CombineCases(c: Content, st: State, a: Parser.Action, fuel: nat)
    ensures var source := Underscored(OrElse(a.obj, ""));
      var target := Underscored(OrElse(a.target, ""));
      var found := FindContaining(st.inventory, source);
      (found.None? <==> forall i :: 0 <= i < |st.inventory| ==> !Contains(ToLower(st.inventory[i]), source))
      && (found == Some("") ==> source == "" && "" in st.inventory)
      && (found.None? || found.value == "" ==>
            Combine(c, st, a, fuel) == Outcome(st.(out := st.out + [Line("Dir fehlt ein benötigtes Item.")]), None))
      && (found.Some? && found.value != "" && found.value !in c.items ==>
            Combine(c, st, a, fuel) == Outcome(st, Some(Missing(ItemPath(found.value)))))
      && (found.Some? && found.value != "" && found.value in c.items && target !in c.items[found.value].combine ==>
            Combine(c, st, a, fuel)
              == Outcome(st.(out := st.out + [Line("Das lässt sich nicht kombinieren.")]), None))
      && (found.Some? && found.value != "" && found.value in c.items && target in c.items[found.value].combine ==>
            Combine(c, st, a, fuel) == Events.Run(c, st, c.items[found.value].combine[target], fuel))
  {
  }

  /** A fight captures every action with a verb: the combat handler takes it, and an
      action it does not handle only prints "Kampf läuft bereits."; the player does not
      move and no data file is read. */
  lemma FightCapturesActions(c: Content, st: State, a: Parser.Action, fuel: nat)
    requires st.inCombat && a.verb != ""
    ensures var (st1, handled) := Combat.Attack(st, a.verb);
      Dispatch(c, st, a, fuel)
        == Outcome(if handled then st1 else st1.(out := st1.out + [Line("Kampf läuft bereits.")]), None)
      && Dispatch(c, st, a, fuel).st.location == st.location
      && Dispatch(c, st, a, fuel).st.rooms == st.rooms
  {
    if st.enemy.Some? && a.verb == "attack" {
      if st.enemy.value.stats.hp - Combat.PlayerDamage(st.stats, st.enemy.value.stats) <= 0 {
        Combat.Victory(st);
        var e := st.enemy.value;
        Combat.LootAdds(Print(Combat.Strike(st, e), e.name + " wurde besiegt!").(inCombat := false), e.drops);
      }
    }
  }

  /** `adventure.start()` resets the player state (the default stats, the world's global
      flags, nothing carried, visited or locked, no fight), saves, and shows the start
      room as a first visit; the room cache survives. */
  lemma StartResets(c: Content, st: State, fuel: nat)
    ensures var started := Start(c, st, fuel);
      var reset := State(c.world.startRoom, [], c.world.globalFlags, DefaultStats, false, None,
                         {}, map[], st.rooms, st.saves + 1, st.out + [Line("Starte Adventure...")]);
      started == Events.Show(c, reset, true, fuel)
  {
  }

  /** `adventure.start()` enters the start room: when it can be loaded it is marked
      visited, and after it has been marked and printed its first-visit script runs (an
      empty script runs nothing). */
  lemma StartEntersStartRoom(c: Content, st: State, fuel: nat)
    requires c.world.startRoom in st.rooms || c.world.startRoom in c.rooms
    ensures var reset := State(c.world.startRoom, [], c.world.globalFlags, DefaultStats, false, None,
                               {}, map[], st.rooms, st.saves + 1, st.out + [Line("Starte Adventure...")]);
      var room := LoadRoom(c, reset, reset.location).1.value;
      var shown := Events.Shown(LoadRoom(c, reset, reset.location).0, room);
      room.id in Start(c, st, fuel).st.visited
      && (Events.Script(room, true) == [] ==> Start(c, st, fuel) == Outcome(shown, None))
      && (Events.Script(room, true) != [] && fuel > 0 ==>
            Start(c, st, fuel) == Events.Run(c, shown, Events.Script(room, true), fuel - 1))
  {
    var reset := State(c.world.startRoom, [], c.world.globalFlags, DefaultStats, false, None,
                       {}, map[], st.rooms, st.saves + 1, st.out + [Line("Starte Adventure...")]);
    StartResets(c, st, fuel);
    ShowMarks(c, reset, true, fuel);
    Events.ShowRunsScript(c, reset, true, fuel);
  }

  /** A lone direction word typed outside a fight is a move in that direction. */
  lemma DirectionInputMoves(c: Content, st: State, text: string, fuel: nat)
    requires Parser.Normalized(text) in Parser.DirectionAliases && !st.inCombat
    ensures var a := Parser.ParseInput(text);
      Input(c, st, text, fuel) == Move(c, st, a, fuel)
      && MoveKey(a) == Parser.DirectionAliases[Parser.Normalized(text)]
  {
    ParserFacts.AliasMoves(text);
    var a := Parser.ParseInput(text);
    GoDispatches(c, st, a, fuel);
    DirectionIsMoveKey(a);
  }

  /** A canonical direction is never empty, so `performMove` takes it as the exit key. */
  lemma DirectionIsMoveKey(a: Parser.Action)
    requires a.direction.Some? && a.direction.value in Parser.Directions
    ensures MoveKey(a) == a.direction.value
  {
  }

  /** Outside a fight, `handleInput` sends a `go` action to `performMove`. */
  lemma GoDispatches(c: Content, st: State, a: Parser.Action, fuel: nat)
    requires a.verb == "go" && !st.inCombat
    ensures Dispatch(c, st, a, fuel) == Move(c, st, a, fuel)
  {
  }

  // ---------------------------------------------------------------------------------------
  // `performInspect` and a room without an objects list

  /** The outcome is not a JavaScript `TypeError`. */
  predicate NoThrow(o: Outcome) {
    o.fault.None? || !o.fault.value.TypeError?
  }

  // The three lemmas below hold by construction: the records of `Model` give every field
  // a script or a room relies on, so the only `TypeError` the model can represent is the
  // one of `performInspect`. They are facts about the model, not about the engine: an
  // enemy document without `stats`, say, would throw in `startCombat` and cannot be
  // written down here.

  /** No script of the model throws a `TypeError`. */
  lemma {:induction false} RunNoThrow(c: Content, st: State, es: seq<Effect>, fuel: nat)
    ensures NoThrow(Events.Run(c, st, es, fuel))
    decreases fuel, SizeAll(es), 1
  {
    if es != [] {
      SizeOfElement(es, 0);
      HandleNoThrow(c, st, es[0], fuel);
      var r := Events.Handle(c, st, es[0], fuel);
      if r.fault.None? {
        RunNoThrow(c, r.st, es[1..], fuel);
      }
    }
  }

  /** No effect of the model throws a `TypeError`. */
  lemma {:induction false} HandleNoThrow(c: Content, st: State, e: Effect, fuel: nat)
    ensures NoThrow(Events.Handle(c, st, e, fuel))
    decreases fuel, Size(e), 0
  {
    match e
    case FlagIf(k, v, t, f) =>
      RunNoThrow(c, st, if Read(st.flags, k) == v then t else f, fuel);
    case Transition(to) =>
      ShowNoThrow(c, Save(st.(location := to)), true, fuel);
    case _ =>
  }

  /** Showing a room in the model never throws a `TypeError`. */
  lemma {:induction false} ShowNoThrow(c: Content, st: State, first: bool, fuel: nat)
    ensures NoThrow(Events.Show(c, st, first, fuel))
    decreases fuel, 0, 0
  {
    var (st1, room) := LoadRoom(c, st, st.location);
    if room.Some? {
      var es := Events.Script(room.value, first);
      if es != [] && fuel > 0 {
        RunNoThrow(c, Events.Shown(st1, room.value), es, fuel - 1);
      }
    }
  }

  /** As written, inspecting a room item in a room that has no objects list throws: the
      candidate list reads `room.objects || []`, the membership test reads `room.objects`. */
  lemma InspectAsWrittenThrows(c: Content, st: State, a: Parser.Action, fuel: nat)
    requires HasRoom(c, st) && Truthy(a.obj)
    requires var room := LoadRoom(c, st, st.location).1.value;
      room.objects.None? && InspectMatch(room, a).Some?
    ensures InspectAsWritten(c, st, a, fuel).fault == Some(TypeError("includes"))
  {
  }

  /** Corrected, inspecting never throws in the model; a matching room item that has a document is
      described by its name and description, whether or not the room lists objects. */
  lemma InspectDescribesItem(c: Content, st: State, a: Parser.Action, fuel: nat)
    ensures NoThrow(Inspect(c, st, a, fuel))
    ensures HasRoom(c, st) && Truthy(a.obj) ==>
      var (st1, room) := LoadRoom(c, st, st.location);
      var found := InspectMatch(room.value, a);
      found.Some? && found.value !in OrEmpty(room.value.objects) && found.value in c.items ==>
        Inspect(c, st, a, fuel)
          == Outcome(Print(st1, c.items[found.value].name + ": " + c.items[found.value].description), None)
  {
    var (st1, room) := LoadRoom(c, st, st.location);
    if room.Some? {
      if !Truthy(a.obj) {
        ShowNoThrow(c, st1, false, fuel);
      } else {
        var found := InspectMatch(room.value, a);
        if found.Some? && found.value in OrEmpty(room.value.objects) && found.value in c.objects {
          var f := c.objects[found.value];
          RunNoThrow(c, Print(st1, f.name + ": " + f.description), f.inspect, fuel);
        } else if found.Some? && found.value !in OrEmpty(room.value.objects) {
          assert found.value in OrEmpty(room.value.objects) + room.value.items;
        }
      }
    }
  }
}
